/** The fixture catalogue and the annotations the store starts with. */
module MockData {
  import opened Wrappers
  import opened Types

  const Episode101 := Episode("101", "1", "#163 James Clear: Building Better Habits",
    "James Clear discusses his research on habits, decision making, and continuous improvement.",
    "https://www.soundhelix.com/examples/mp3/SoundHelix-Song-1.mp3", 3725.0, "2023-02-15",
    Some("https://images.pexels.com/photos/3756766/pexels-photo-3756766.jpeg?auto=compress&cs=tinysrgb&w=600"))

  const Episode102 := Episode("102", "1", "#164 Adam Grant: Think Again",
    "Organizational psychologist Adam Grant discusses the value of rethinking and mental flexibility.",
    "https://www.soundhelix.com/examples/mp3/SoundHelix-Song-2.mp3", 4512.0, "2023-03-01",
    Some("https://images.pexels.com/photos/3183159/pexels-photo-3183159.jpeg?auto=compress&cs=tinysrgb&w=600"))

  const MockPodcast := Podcast("1", "The Knowledge Project", "Shane Parrish",
    "Interviews with the world's top performers in business, sports, and more.",
    "https://images.pexels.com/photos/3471028/pexels-photo-3471028.jpeg?auto=compress&cs=tinysrgb&w=600",
    [Episode101, Episode102])

  const MockAnnotations: seq<Annotation> := [
    Annotation("a1", "101", 435.0,
      "James explains the importance of small habits and how they compound over time.",
      General, "2023-02-15T15:30:00Z", "2023-02-15T15:30:00Z", false),
    Annotation("a2", "101", 1256.0,
      "\"The quality of your life depends on the quality of your habits.\" - James Clear",
      Quote, "2023-02-15T15:45:00Z", "2023-02-15T15:45:00Z", false),
    Annotation("a3", "101", 2105.0,
      "Research mentioned: University of London study on habit formation and the average 66 days to form a habit.",
      Reference, "2023-02-15T16:10:00Z", "2023-02-15T16:12:00Z", true),
    Annotation("a4", "101", 3100.0,
      "How does habit stacking compare to traditional methods of behavior change?",
      Question, "2023-02-15T16:30:00Z", "2023-02-15T16:30:00Z", false)
  ]
}
