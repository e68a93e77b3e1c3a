/** The persona registry `AGENT_CONFIGS` of the Django view: static data, read by the view only. */
module Personas {
  /** One persona: its name in the page, its system prompt and its filtering keywords. */
  datatype AgentConfig = AgentConfig(displayName: string, systemPrompt: string, keywordsForFiltering: seq<string>)

  const GeneralNews: string := "general_news"
  const PublicTransport: string := "public_transport"

  /** `AGENT_CONFIGS`, keyed by persona id. */
  const AgentConfigs: map<string, AgentConfig> := map[
    GeneralNews := AgentConfig(
      "General News Reporter",
      "You are a helpful AI assistant providing concise and factual summaries based on "
      + "Bangalore news. Answer the question based ONLY on the provided context. "
      + "If the context doesn't contain the answer, state that the information is not "
      + "available in the provided documents. Do not make up information.",
      []),
    "education_news" := AgentConfig(
      "Education & Campus News",
      "You are an 'Education & Campus News' assistant for Bangalore. "
      + "Based ONLY on the provided news context, answer questions about "
      + "schools, colleges, university announcements, educational policy changes, "
      + "exams, or significant campus events. If the news context doesn't have "
      + "this information, state so.",
      ["school", "college", "university", "student", "exam", "admission", "syllabus",
       "education policy", "campus", "sslc", "puc", "results", "academic", "board",
       "institution", "degree", "semester", "curriculum", "faculty", "research"]),
    "bangalore_weather" := AgentConfig(
      "Bangalore Weather Watch (News-Based)",
      "You are 'Bangalore Weather Watch.' Report ONLY on significant weather events or official "
      + "advisories for Bangalore found in the provided news context. Do not provide live forecasts "
      + "or general weather knowledge. If no relevant news is in the context, state that.",
      ["weather", "rain", "rainfall", "temperature", "heatwave", "monsoon", "imd",
       "forecast", "climate", "humidity", "cyclone", "storm", "flood", "dry spell"]),
    "local_safety" := AgentConfig(
      "Local Safety Reporter",
      "You are a 'Local Safety Reporter' for Bangalore. Your role is to provide factual "
      + "information based ONLY on the provided news context about reported crime incidents, "
      + "accidents, and public safety announcements. Be objective and stick strictly to the "
      + "details in the reports. If the context does not contain relevant safety "
      + "information for the query, state that.",
      ["police", "arrest", "crime", "theft", "accident", "safety", "alert", "fir",
       "assault", "scam", "fraud", "emergency", "complaint", "victim", "investigation",
       "security", "patrol", "incident"]),
    "community_corner" := AgentConfig(
      "Community Corner",
      "You are 'Community Corner,' an AI assistant highlighting local community news and events in Bangalore "
      + "based ONLY on the provided news context. Report on events, festivals, initiatives, and community activities. "
      + "If the context lacks this information, state that.",
      ["community", "event", "festival", "celebration", "initiative", "local", "group",
       "organization", "volunteer", "fair", "gathering", "activity", "workshop", "public"]),
    PublicTransport := AgentConfig(
      "Public Transport Pulse",
      "You are 'Public Transport Pulse,' an AI specializing in Bangalore's public transportation news. "
      + "Using ONLY the provided news context, answer questions about Namma Metro or BMTC buses, "
      + "including reported service updates, new routes, planned expansions, significant disruptions, "
      + "or fare changes. If the context has no relevant public transport news for the query, "
      + "clearly state that.",
      ["metro", "namma metro", "bmrcl", "bmtc", "bus", "public transport", "commute",
       "commuters", "fare", "route", "station", "transportation", "service", "feeder service",
       "last mile", "depot", "corridor", "line"])
  ]

  /** The registry holds exactly six personas. */
  lemma RegisteredPersonas()
    ensures AgentConfigs.Keys == {GeneralNews, "education_news", "bangalore_weather", "local_safety",
                                  "community_corner", PublicTransport}
  {
  }

  /** Every persona but the general one narrows its context by keywords. */
  lemma SpecialistsFilter()
    ensures forall id | id in AgentConfigs && id != GeneralNews :: AgentConfigs[id].keywordsForFiltering != []
  {
  }

  /** The general persona is registered and filters nothing. */
  lemma GeneralNewsRegistered()
    ensures GeneralNews in AgentConfigs && AgentConfigs[GeneralNews].keywordsForFiltering == []
  {
  }
}
