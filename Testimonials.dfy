/**
 The catalogue of the feature grid with section id "features", the `Features` component of Testimonials.tsx.
 */
module Testimonials {
  import opened CategoryFilter

  const CommonFeatures: seq<Feature> := [
    Feature("Online Presence",
            "Website, LinkedIn, Discord/Slack community management",
            "\U{1F310}", Common,
            "from-blue-600 via-indigo-700 to-purple-800", Some("/background-section1.png")),
    Feature("Branding",
            "Consistent visual + narrative identity across Labs, Studios, Chaos",
            "\U{1F3A8}", Common,
            "from-indigo-700 via-purple-600 to-blue-500", Some("/background-section2.png")),
    Feature("CRM/Project Management",
            "For agency operations & client tracking",
            "\U{1F4CA}", Common,
            "from-purple-600 via-blue-500 to-indigo-600", Some("/background-section3.png"))
  ]

  const AgencyFeatures: seq<Feature> := [
    Feature("Service Portfolio",
            "Landing pages showcasing our comprehensive service offerings",
            "\U{1F4BC}", Agency,
            "from-blue-500 via-indigo-600 to-purple-700", Some("/background-section1.png")),
    Feature("Client Onboarding",
            "Streamlined proposal workflow and client management system",
            "\U{1F680}", Agency,
            "from-indigo-600 via-purple-500 to-blue-600", Some("/background-section2.png")),
    Feature("Payment Integration",
            "Seamless Stripe and Razorpay payment processing",
            "\U{1F4B3}", Agency,
            "from-purple-500 via-blue-500 to-indigo-600", Some("/background-section3.png")),
    Feature("Case Studies",
            "Comprehensive portfolio showcasing successful projects",
            "\U{1F4C8}", Agency,
            "from-blue-600 via-purple-500 to-indigo-700", Some("/background-section1.png"))
  ]

  const StudiosFeatures: seq<Feature> := [
    Feature("Idea Incubation",
            "Notion/Trello boards for systematic idea tracking and development",
            "\U{1F4A1}", Studios,
            "from-purple-600 via-indigo-500 to-blue-600", Some("/background-section2.png")),
    Feature("Content Hub",
            "YouTube, Podcast, and Blog integration for thought leadership",
            "\U{1F3A5}", Studios,
            "from-indigo-600 via-purple-500 to-blue-700", Some("/background-section3.png")),
    Feature("Metrics Dashboard",
            "Track MVP progress and content reach analytics",
            "\U{1F4CA}", Studios,
            "from-blue-600 via-indigo-500 to-purple-600", Some("/background-section1.png"))
  ]

  const ChaosFeatures: seq<Feature> := [
    Feature("Community Platform",
            "Discord/Slack + forums for collaborative innovation",
            "\U{1F465}", Chaos,
            "from-slate-600 via-indigo-500 to-purple-600", Some("/background-section2.png")),
    Feature("Event Management",
            "Hackathons, online meetups, and networking events",
            "\U{1F3AA}", Chaos,
            "from-purple-600 via-indigo-500 to-blue-600", Some("/background-section3.png")),
    Feature("Membership Tiers",
            "Free and paid premium access with exclusive benefits",
            "\U{2B50}", Chaos,
            "from-indigo-600 via-purple-500 to-blue-700", Some("/background-section1.png")),
    Feature("Resource Library",
            "Guides, AI tools, and knowledge sharing platform",
            "\U{1F4DA}", Chaos,
            "from-blue-600 via-indigo-500 to-purple-600", Some("/background-section2.png"))
  ]

  /** The catalogue lists the features grouped by category. */
  const Catalogue: seq<Feature> := CommonFeatures + AgencyFeatures + StudiosFeatures + ChaosFeatures

  /** Each of the four lists holds features of its own category only. */
  lemma Grouped()
    ensures Block(CommonFeatures, Common)
    ensures Block(AgencyFeatures, Agency)
    ensures Block(StudiosFeatures, Studios)
    ensures Block(ChaosFeatures, Chaos)
  {
  }

  /** Each category's grid is the catalogue's block of that category, in catalogue order. */
  lemma ShownPerCategory()
    ensures Shown(Catalogue, All) == Catalogue
    ensures Shown(Catalogue, Only(Common)) == CommonFeatures
    ensures Shown(Catalogue, Only(Agency)) == AgencyFeatures
    ensures Shown(Catalogue, Only(Studios)) == StudiosFeatures
    ensures Shown(Catalogue, Only(Chaos)) == ChaosFeatures
  {
    Grouped();
    FilterGrouped(CommonFeatures, AgencyFeatures, StudiosFeatures, ChaosFeatures);
  }

  /** The counts printed on the five buttons. */
  lemma TabCounts()
    ensures Tabs(Catalogue)[0].count == 14
    ensures Tabs(Catalogue)[1].count == 3
    ensures Tabs(Catalogue)[2].count == 4
    ensures Tabs(Catalogue)[3].count == 3
    ensures Tabs(Catalogue)[4].count == 4
  {
    ShownPerCategory();
    assert |Catalogue| == |CommonFeatures| + |AgencyFeatures| + |StudiosFeatures| + |ChaosFeatures|;
  }
}
