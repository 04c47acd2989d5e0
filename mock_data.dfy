/** The sample analysis kept with the application, and what it is promised to satisfy. */
module MockData {
  import opened AnalysisTypes
  import AiService

  const MockAnalysis: IdeaAnalysis := IdeaAnalysis(
    "A comprehensive AI-powered platform that helps small businesses automate their social media marketing and content creation, with a focus on personalized engagement and analytics.",
    85.0,
    Swot(
      ["AI-powered automation reduces manual work",
       "Scalable business model with subscription-based revenue",
       "Growing market demand for social media automation",
       "Strong technical team with AI expertise"],
      ["High initial development costs",
       "Dependency on social media platform APIs",
       "Need for continuous AI model training",
       "Limited brand recognition in early stages"],
      ["Expanding market for social media marketing tools",
       "Potential for enterprise-level features",
       "Integration with emerging social platforms",
       "Growing demand for AI-powered business solutions"],
      ["Established competitors with larger market share",
       "Rapid changes in social media algorithms",
       "Potential regulatory changes in AI usage",
       "Increasing competition in the automation space"]),
    [Competitor("Buffer",
       "Established social media management platform with strong brand recognition and comprehensive features."),
     Competitor("Hootsuite",
       "Enterprise-focused social media management tool with advanced analytics and team collaboration features."),
     Competitor("Later",
       "Visual-first social media scheduler with strong focus on Instagram marketing.")],
    ["Social media marketing automation market expected to grow at 15% CAGR",
     "Small businesses increasingly adopting AI tools for marketing",
     "Growing demand for personalized social media content",
     "Shift towards data-driven marketing decisions",
     "Increasing importance of social media presence for business success"],
    ["Focus on AI-powered personalization as a key differentiator",
     "Develop a freemium model to attract small businesses",
     "Build strong integration capabilities with major social platforms",
     "Invest in user education and support resources",
     "Consider strategic partnerships with marketing agencies",
     "Implement robust analytics and reporting features"])

  /** The sample passes the client's shape check, so it can stand in for a real reply. */
  lemma MockAnalysisAccepted()
    ensures AiService.IsValidAnalysis(Encode(MockAnalysis)) == AiService.Accepted
  {
    AiService.EncodedAcceptedIff(MockAnalysis);
  }

  /** Its score and the sizes and order of its lists. */
  lemma MockAnalysisContents()
    ensures 0.0 <= MockAnalysis.viabilityScore == 85.0 <= 100.0
    ensures var w := MockAnalysis.swotAnalysis;
            |w.strengths| == |w.weaknesses| == |w.opportunities| == |w.threats| == 4
    ensures |MockAnalysis.competitors| == 3
    ensures MockAnalysis.competitors[0].name == "Buffer"
    ensures MockAnalysis.competitors[1].name == "Hootsuite"
    ensures MockAnalysis.competitors[2].name == "Later"
    ensures forall i :: 0 <= i < 3 ==> MockAnalysis.competitors[i].description != ""
    ensures |MockAnalysis.marketInsights| == 5 && |MockAnalysis.recommendations| == 6
  {
  }
}
