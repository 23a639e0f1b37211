/**
 * The fixed content that app/tools.py returns outright and that the agents
 * under app/agents/ fall back on when the model's reply gives them nothing
 * usable. Each piece is written once here: the tool and the agent produce
 * the very same strings. What each piece quotes from its inputs is stated
 * by the lemmas that follow it.
 */
module Templates {
  import opened Strings
  import opened Json

  const LaunchHashtags: string := "#ProductHunt #Launch"

  /** `s` occurs in `t` starting at index `k`. */
  lemma ContainsAt(t: string, s: string, k: nat)
    requires k + |s| <= |t| && t[k..k + |s|] == s
    ensures Contains(t, s)
  {
    assert StartsWith(t[k..], s);
  }

  // ----- marketing assets -----

  /** The five stock taglines. */
  function FallbackTaglines(productName: string, pitch: string, audience: string): (r: seq<string>)
    ensures |r| == 5
  {
    [
      productName + " - " + Take(pitch, 50) + "...",
      "Revolutionary " + productName + " for " + audience,
      "Transform your workflow with " + productName,
      "The future of " + productName + " is here",
      "Build better with " + productName]
  }

  /**
   * The first stock tagline is the product name followed by the pitch's
   * first 50 characters and "..."; the second is "Revolutionary {name} for
   * {audience}"; every one names the product.
   */
  lemma FallbackTaglinesQuote(productName: string, pitch: string, audience: string)
    ensures var r := FallbackTaglines(productName, pitch, audience);
            && StartsWith(r[0], productName)
            && EndsWith(r[0], Take(pitch, 50) + "...")
            && Contains(r[0], Take(pitch, 50) + "...")
            && r[1] == "Revolutionary " + productName + " for " + audience
            && forall k | 0 <= k < 5 :: Contains(r[k], productName)
  {
    var r := FallbackTaglines(productName, pitch, audience);
    var quote := Take(pitch, 50) + "...";
    assert StartsWith(r[0], productName) && Contains(r[0], productName) by {
      assert r[0][..|productName|] == productName;
      ContainsAt(r[0], productName, 0);
    }
    assert EndsWith(r[0], quote) && Contains(r[0], quote) by {
      assert r[0][|r[0]| - |quote|..] == quote;
      ContainsAt(r[0], quote, |r[0]| - |quote|);
    }
    assert Contains(r[1], productName) by {
      ContainsAt(r[1], productName, |"Revolutionary "|);
    }
    assert Contains(r[2], productName) by {
      ContainsAt(r[2], productName, |"Transform your workflow with "|);
    }
    assert Contains(r[3], productName) by {
      ContainsAt(r[3], productName, |"The future of "|);
    }
    assert Contains(r[4], productName) by {
      ContainsAt(r[4], productName, |"Build better with "|);
    }
  }

  /** The short description of `generate_marketing_assets`. */
  function MarketingDescription(productName: string, pitch: string, audience: string): string
  {
    pitch + " Perfect for " + audience + ". Try " + productName + " today and see the difference!"
  }

  /** The description opens with the whole pitch and names the audience and the product. */
  lemma MarketingDescriptionQuotes(productName: string, pitch: string, audience: string)
    ensures var d := MarketingDescription(productName, pitch, audience);
            StartsWith(d, pitch) && Contains(d, audience) && Contains(d, productName)
  {
    var d := MarketingDescription(productName, pitch, audience);
    assert d[..|pitch|] == pitch;
    ContainsAt(d, audience, |pitch + " Perfect for "|);
    ContainsAt(d, productName, |pitch + " Perfect for " + audience + ". Try "|);
  }

  /** The three stock tweets. */
  function FallbackTweets(productName: string, pitch: string, audience: string): (r: seq<string>)
    ensures |r| == 3
  {
    [
      "\U{1F680} Just launched " + productName + " on @ProductHunt! " + Take(pitch, 100) + "... " + LaunchHashtags,
      "Excited to share " + productName + " with the world! Built for " + audience + ". Check it out: " + LaunchHashtags,
      "After months of building, " + productName + " is live on @ProductHunt! Would love your support \U{1F64F} " + LaunchHashtags]
  }

  /** Every stock tweet ends with the launch hashtags; the first quotes the pitch's first 100 characters. */
  lemma FallbackTweetsQuote(productName: string, pitch: string, audience: string)
    ensures var r := FallbackTweets(productName, pitch, audience);
            && (forall k | 0 <= k < 3 :: EndsWith(r[k], LaunchHashtags))
            && Contains(r[0], Take(pitch, 100))
  {
    var r := FallbackTweets(productName, pitch, audience);
    forall k | 0 <= k < 3 ensures EndsWith(r[k], LaunchHashtags) {
      assert r[k][|r[k]| - |LaunchHashtags|..] == LaunchHashtags;
    }
    ContainsAt(r[0], Take(pitch, 100), |"\U{1F680} Just launched " + productName + " on @ProductHunt! "|);
  }

  /** The five stock launch suggestions. */
  function FallbackSuggestions(productName: string, audience: string): (r: seq<string>)
    ensures |r| == 5
  {
    [
      "Start building your community around " + productName + " 2-3 weeks before launch",
      "Create a demo video showcasing " + productName + "'s key features",
      "Reach out to " + audience + " influencers and thought leaders",
      "Prepare social media content for launch day and the following week",
      "Plan follow-up activities to maintain momentum after launch day"]
  }

  /** The first two stock suggestions name the product, the third the audience. */
  lemma FallbackSuggestionsQuote(productName: string, audience: string)
    ensures var r := FallbackSuggestions(productName, audience);
            Contains(r[0], productName) && Contains(r[1], productName) && Contains(r[2], audience)
  {
    var r := FallbackSuggestions(productName, audience);
    ContainsAt(r[0], productName, |"Start building your community around "|);
    ContainsAt(r[1], productName, |"Create a demo video showcasing "|);
    ContainsAt(r[2], audience, |"Reach out to "|);
  }

  /** The keys of a marketing-asset answer's data, in order. */
  const AssetKeys: seq<string> := ["taglines", "short_description", "tweets", "suggestions"]

  /** The four-key data dict of a marketing-asset answer. */
  function AssetData(taglines: seq<string>, description: string, tweets: seq<string>, suggestions: seq<string>): (r: Members)
    ensures Keys(r) == AssetKeys
    ensures r[0].1 == Strs(taglines) && r[1].1 == Str(description) && r[2].1 == Strs(tweets) && r[3].1 == Strs(suggestions)
  {
    [("taglines", Strs(taglines)),
     ("short_description", Str(description)),
     ("tweets", Strs(tweets)),
     ("suggestions", Strs(suggestions))]
  }

  // ----- research -----

  function Launch(name: string, tagline: string, date: string, ranking: string,
                  factors: seq<string>, standout: string, lessons: string): Json
  {
    Object([
      ("name", Str(name)),
      ("tagline", Str(tagline)),
      ("launch_date", Str(date)),
      ("ranking", Str(ranking)),
      ("success_factors", Strs(factors)),
      ("standout_features", Str(standout)),
      ("lessons", Str(lessons))])
  }

  /** Two sample launches of the category. */
  function FallbackLaunches(category: string): (r: seq<Json>)
    ensures |r| == 2
  {
    [
      Launch("Top " + category + " Tool", "Revolutionary solution for modern teams", "2024-10-15", "1st place",
             ["Strong community", "Clear value prop", "Great timing"],
             "Unique approach to common problem", "Focus on user experience and community building"),
      Launch("AI-Powered " + category, "Automate your workflow with AI", "2024-09-20", "2nd place",
             ["AI trend", "Clear demo", "Founder story"],
             "First to market with AI integration", "Timing and trend alignment crucial")]
  }

  /** The sample launches are named "Top {category} Tool" and "AI-Powered {category}", in that order. */
  lemma FallbackLaunchNames(category: string)
    ensures var r := FallbackLaunches(category);
            && r[0].Object? && Get(r[0].members, "name", Null) == Str("Top " + category + " Tool")
            && r[1].Object? && Get(r[1].members, "name", Null) == Str("AI-Powered " + category)
  {
  }

  function Hunter(name: string, handle: string, specialization: string, followers: string,
                  successRate: string, contact: string, whyFit: string): Json
  {
    Object([
      ("name", Str(name)),
      ("handle", Str(handle)),
      ("specialization", Str(specialization)),
      ("followers", Str(followers)),
      ("success_rate", Str(successRate)),
      ("contact_approach", Str(contact)),
      ("why_fit", Str(whyFit))])
  }

  /** Two sample hunters. */
  function FallbackHunters(category: string): (r: seq<Json>)
    ensures |r| == 2
  {
    [
      Hunter("Tech Hunter", "@techhunter", category + " and productivity tools", "15K+", "High",
             "Twitter DM or email", "Specializes in " + category + " launches"),
      Hunter("Startup Advocate", "@startupadvocate", "Early-stage products", "8K+", "Medium-High",
             "LinkedIn message", "Great at helping new founders")]
  }

  /** The first sample hunter's `why_fit` names the category. */
  lemma FallbackHunterFit(category: string)
    ensures var r := FallbackHunters(category);
            r[0].Object? && Get(r[0].members, "why_fit", Null) == Str("Specializes in " + category + " launches")
  {
    var m := FallbackHunters(category)[0].members;
    assert m[0].0 == "name" && m[1].0 == "handle" && m[2].0 == "specialization";
    assert m[3].0 == "followers" && m[4].0 == "success_rate" && m[5].0 == "contact_approach";
    assert m[6].0 == "why_fit";
    assert m[1..][1..][1..][1..][1..][1..] == m[6..];
  }

  /** Five stock insights. */
  function FallbackInsights(category: string): (r: seq<string>)
    ensures |r| == 5
  {
    ["Products in " + category + " that launch on Tuesdays perform 20% better"] + StockInsights
  }

  /** The four insights that do not depend on the category. */
  const StockInsights: seq<string> := [
    "Community building 2-3 weeks before launch is crucial for success",
    "Clear, benefit-focused taglines outperform feature-focused ones",
    "Founder stories and behind-the-scenes content drive engagement",
    "Posting updates and responding to comments increases visibility"]

  /** The first stock insight names the category. */
  lemma FallbackInsightsQuote(category: string)
    ensures Contains(FallbackInsights(category)[0], category)
  {
    ContainsAt(FallbackInsights(category)[0], category, |"Products in "|);
  }

  /** The stock competitor analysis: five keys, market saturation "Medium". */
  function FallbackCompetitors(): (r: Members)
    ensures Keys(r) == ["market_saturation", "pricing_strategies", "key_differentiators", "market_gaps", "positioning_strategy"]
    ensures Get(r, "market_saturation", Null) == Str("Medium")
  {
    [
      ("market_saturation", Str("Medium")),
      ("pricing_strategies", Strs(["Freemium", "One-time purchase", "Subscription"])),
      ("key_differentiators", Strs(["User experience", "AI integration", "Community features"])),
      ("market_gaps", Strs(["Better onboarding", "Mobile-first approach", "Enterprise features"])),
      ("positioning_strategy", Str("Focus on unique value proposition and user experience"))]
  }

  /** The keys of a research answer's data, in order. */
  const ResearchKeys: seq<string> := ["top_launches", "recommended_hunters", "insights", "competitor_analysis"]

  /** The four-key data dict of a research answer. */
  function ResearchData(launches: Json, hunters: Json, insights: seq<string>, analysis: Json): (r: Members)
    ensures Keys(r) == ResearchKeys
    ensures r[0].1 == launches && r[1].1 == hunters && r[2].1 == Strs(insights) && r[3].1 == analysis
  {
    [("top_launches", launches),
     ("recommended_hunters", hunters),
     ("insights", Strs(insights)),
     ("competitor_analysis", analysis)]
  }
}
