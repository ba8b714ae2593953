/** The static topic catalog: keywords, topics and the five configured
    conversation topics in their declared order. */
module Config {
  import opened PyDict

  /** A term to look for in the user's text. `weight` is stored but the
      scorer never reads it. */
  datatype Keyword = Keyword(term: string, description: string, weight: real := 1.0)

  /** A conversation topic: display name, description, keywords in declared
      order, and the assistant's opening message. */
  datatype Topic = Topic(name: string, description: string, keywords: seq<Keyword>, introduction: string)

  /** No two keywords of the list share a term. */
  predicate DistinctTerms(keywords: seq<Keyword>) {
    forall i, j :: 0 <= i < j < |keywords| ==> keywords[i].term != keywords[j].term
  }

  const WEATHER_KEYWORDS: seq<Keyword> := [
    Keyword("temperature", "Driven by solar radiation, altitude, and latitude", 1.0),
    Keyword("humidity", "Amount of moisture in the air affecting comfort and precipitation", 1.0),
    Keyword("air pressure", "Influences wind and storm systems", 1.0),
    Keyword("wind patterns", "Caused by pressure differences and Earth's rotation", 1.0),
    Keyword("precipitation", "Rain, snow, sleet, or hail depending on atmospheric conditions", 1.0)
  ]

  const SOFTWARE_PERFORMANCE_KEYWORDS: seq<Keyword> := [
    Keyword("algorithm efficiency", "Complexity and optimization of code logic", 1.0),
    Keyword("hardware resources", "CPU speed, memory capacity, and storage performance", 1.0),
    Keyword("network latency", "Especially for distributed or cloud-based apps", 1.0),
    Keyword("bandwidth", "Especially for distributed or cloud-based apps", 1.0),
    Keyword("concurrency", "Threading, async processing, and scaling ability", 1.0),
    Keyword("load handling", "Threading, async processing, and scaling ability", 1.0),
    Keyword("database query optimization", "Indexing, caching, and reducing I/O bottlenecks", 1.0)
  ]

  const ROAD_TRAFFIC_KEYWORDS: seq<Keyword> := [
    Keyword("road infrastructure", "Quality, layout, and capacity of roads", 1.0),
    Keyword("traffic volume", "Number of vehicles and peak-hour surges", 1.0),
    Keyword("traffic signals", "Synchronization, signage, and smart systems", 1.0),
    Keyword("traffic control", "Synchronization, signage, and smart systems", 1.0),
    Keyword("accidents", "Unexpected disruptions reducing flow", 1.0),
    Keyword("roadworks", "Unexpected disruptions reducing flow", 1.0),
    Keyword("weather conditions", "Rain, snow, and fog affecting speed and safety", 1.0)
  ]

  const JOB_INTERVIEW_KEYWORDS: seq<Keyword> := [
    Keyword("preparation", "Understanding the company and role", 1.0),
    Keyword("research", "Understanding the company and role", 1.0),
    Keyword("communication skills", "Clear, concise, and confident speaking", 1.0),
    Keyword("body language", "Eye contact, posture, and facial expressions", 1.0),
    Keyword("relevant experience", "Direct alignment with job requirements", 1.0),
    Keyword("skills", "Direct alignment with job requirements", 1.0),
    Keyword("positive attitude", "Showing adaptability and enthusiasm", 1.0),
    Keyword("cultural fit", "Showing adaptability and enthusiasm", 1.0)
  ]

  const VOLCANIC_CITY_PLANNING_KEYWORDS: seq<Keyword> := [
    Keyword("hazard mapping", "Identifying lava flow, ashfall, and lahar zones", 1.0),
    Keyword("lava flow", "Identifying lava flow, ashfall, and lahar zones", 1.0),
    Keyword("ashfall", "Identifying lava flow, ashfall, and lahar zones", 1.0),
    Keyword("lahar", "Identifying lava flow, ashfall, and lahar zones", 1.0),
    Keyword("evacuation routes", "Multiple, well-marked, and easily accessible", 1.0),
    Keyword("land use zoning", "Keeping high-risk zones free of permanent settlements", 1.0),
    Keyword("monitoring systems", "Seismic, thermal, and gas detection", 1.0),
    Keyword("early warning systems", "Seismic, thermal, and gas detection", 1.0),
    Keyword("emergency infrastructure", "Shelters, supply depots, and medical facilities", 1.0)
  ]

  /** `TOPICS_CONFIG`: topic key to topic, in insertion order. */
  const TOPICS_CONFIG: Dict<Topic> := [
      ("weather", Topic(
        "Weather",
        "Understanding weather patterns and atmospheric conditions",
        WEATHER_KEYWORDS,
        "Hey! I've heard that you have some interesting insights about weather patterns. Could you tell me more? What do you think has the biggest influence on weather?")),
      ("software_performance", Topic(
        "Software Application Performance",
        "Factors affecting software application efficiency and speed",
        SOFTWARE_PERFORMANCE_KEYWORDS,
        "Hey! I've heard that you have some interesting insights about software application performance. Could you tell me more? What do you think has the biggest influence on how fast applications run?")),
      ("road_traffic", Topic(
        "Road Traffic",
        "Factors affecting traffic flow and road congestion",
        ROAD_TRAFFIC_KEYWORDS,
        "Hey! I've heard that you have some interesting insights about road traffic and what causes congestion. Could you tell me more? What do you think has the biggest influence on traffic flow?")),
      ("job_interview", Topic(
        "Successful Job Interview",
        "Key factors for performing well in job interviews",
        JOB_INTERVIEW_KEYWORDS,
        "Hey! I've heard that you have some interesting insights about what makes job interviews successful. Could you tell me more? What do you think has the biggest influence on interview success?")),
      ("volcanic_city_planning", Topic(
        "City Planning in Volcanic Areas",
        "Urban planning considerations for volcanic hazard zones",
        VOLCANIC_CITY_PLANNING_KEYWORDS,
        "Hey! I've heard that you have some interesting insights about city planning in volcanic areas. Could you tell me more? What do you think has the biggest influence on safe urban development near volcanoes?"))
    ]

  /** `len(TOPICS_CONFIG)`, kept as a number so that tests against it do not
      unfold the catalog; `CatalogKeys` proves the two equal. */
  const TOPIC_COUNT: nat := 5

  /** `list(TOPICS_CONFIG.values())`: the topics in the order they are numbered
      for selection. */
  function CatalogTopics(): (r: seq<Topic>)
    ensures |r| == TOPIC_COUNT
  {
    Values(TOPICS_CONFIG)
  }

  /** `get_random_topic()`: some topic of the catalog; which one is left to
      the random choice. */
  method GetRandomTopic() returns (t: Topic)
    ensures t in CatalogTopics()
  {
    var topics := CatalogTopics();
    var i :| 0 <= i < |topics|;
    t := topics[i];
  }

  /** A keyword built without a weight weighs 1.0. */
  lemma KeywordWeightDefault(term: string, description: string)
    ensures Keyword(term, description).weight == 1.0
  {
  }

  /** The catalog keys, in the order topics are offered. */
  lemma CatalogKeys()
    ensures |TOPICS_CONFIG| == TOPIC_COUNT
    ensures TOPICS_CONFIG[0].0 == "weather"
    ensures TOPICS_CONFIG[1].0 == "software_performance"
    ensures TOPICS_CONFIG[2].0 == "road_traffic"
    ensures TOPICS_CONFIG[3].0 == "job_interview"
    ensures TOPICS_CONFIG[4].0 == "volcanic_city_planning"
  {
  }

  /** Every topic has keywords: 5, 7, 7, 8 and 9 of them, in catalog order. */
  lemma CatalogKeywordCounts()
    ensures |CatalogTopics()[0].keywords| == 5
    ensures |CatalogTopics()[1].keywords| == 7
    ensures |CatalogTopics()[2].keywords| == 7
    ensures |CatalogTopics()[3].keywords| == 8
    ensures |CatalogTopics()[4].keywords| == 9
    ensures forall t :: t in CatalogTopics() ==> t.keywords != []
  {
  }

  /** The keyword lists of the catalog, in catalog order. */
  lemma CatalogKeywordLists()
    ensures CatalogTopics()[0].keywords == WEATHER_KEYWORDS
    ensures CatalogTopics()[1].keywords == SOFTWARE_PERFORMANCE_KEYWORDS
    ensures CatalogTopics()[2].keywords == ROAD_TRAFFIC_KEYWORDS
    ensures CatalogTopics()[3].keywords == JOB_INTERVIEW_KEYWORDS
    ensures CatalogTopics()[4].keywords == VOLCANIC_CITY_PLANNING_KEYWORDS
  {
  }

  /** The keyword list as configured: no two keywords share a term, and
      every weight is the default 1.0. */
  predicate WellFormedKeywords(keywords: seq<Keyword>) {
    && DistinctTerms(keywords)
    && forall i :: 0 <= i < |keywords| ==> keywords[i].weight == 1.0
  }

  /** Every catalog topic's keyword list is well formed. */
  lemma CatalogKeywordsWellFormed(i: nat)
    requires i < TOPIC_COUNT
    ensures WellFormedKeywords(CatalogTopics()[i].keywords)
  {
    CatalogKeywordLists();
    if i == 0 {
      WeatherKeywordsWellFormed();
    } else if i == 1 {
      SoftwareKeywordsWellFormed();
    } else if i == 2 {
      RoadKeywordsWellFormed();
    } else if i == 3 {
      JobKeywordsWellFormed();
    } else {
      VolcanicKeywordsWellFormed();
    }
  }

  lemma WeatherKeywordsWellFormed() ensures WellFormedKeywords(WEATHER_KEYWORDS) { }
  lemma SoftwareKeywordsWellFormed() ensures WellFormedKeywords(SOFTWARE_PERFORMANCE_KEYWORDS) { }
  lemma RoadKeywordsWellFormed() ensures WellFormedKeywords(ROAD_TRAFFIC_KEYWORDS) { }
  lemma JobKeywordsWellFormed() ensures WellFormedKeywords(JOB_INTERVIEW_KEYWORDS) { }
  lemma VolcanicKeywordsWellFormed() ensures WellFormedKeywords(VOLCANIC_CITY_PLANNING_KEYWORDS) { }
}
