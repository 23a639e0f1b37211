/**
 * The asset-prep agent of app/agents/asset_prep_agent.py: four model calls,
 * in the order taglines, description, tweets, suggestions, each read into
 * content with the stock content of module Templates as its fallback.
 */
module AssetPrep {
  import opened Wrappers
  import opened Strings
  import opened Json
  import opened Utils
  import opened Templates
  import opened BaseAgent
  import opened Replies

  const AssetFailed: string := "Asset generation failed: "

  /** Each line cleaned, in order. */
  function CleanedLines(lines: seq<string>): (r: seq<string>)
    ensures |r| == |lines|
    ensures forall k | 0 <= k < |r| :: r[k] == CleanText(lines[k])
  {
    seq(|lines|, k requires 0 <= k < |lines| => CleanText(lines[k]))
  }

  /** One more line read: its cleaned form is kept after the bullets before it exactly when it is a bullet. */
  lemma CleanedStep(lines: seq<string>, i: nat)
    requires i < |lines|
    ensures var kept := Bullets(CleanedLines(lines)[..i]);
            var line := CleanText(lines[i]);
            && (Bulleted(line) ==> Bullets(CleanedLines(lines)[..i + 1]) == kept + [line])
            && (!Bulleted(line) ==> Bullets(CleanedLines(lines)[..i + 1]) == kept)
  {
    BulletsStep(CleanedLines(lines), i);
  }

  /**
   * `[clean_text(x) for x in v]`: each item cleaned, in order, when `v`
   * iterates to strings only; None when `v` is not iterable or one of its
   * items is not a string, where the comprehension raises.
   */
  function CleanedItems(v: Json): (r: Option<seq<string>>)
    ensures r.Some? <==> Iterate(v).Success? && forall x <- Iterate(v).value :: x.Str?
    ensures r.Some? ==> |r.value| == |Iterate(v).value|
    ensures r.Some? ==> forall k | 0 <= k < |r.value| :: r.value[k] == CleanText(Iterate(v).value[k].s)
  {
    match Iterate(v)
    case Failure(_) => None
    case Success(items) =>
      if forall x <- items :: x.Str? then Some(seq(|items|, k requires 0 <= k < |items| => CleanText(items[k].s)))
      else None
  }

  /**
   * The cleaned strings listed under `key` in the reply's JSON, or the
   * fallback when there is no JSON that decodes or the listing raises
   * (the entry iterates to something else than strings).
   */
  function CleanedListOr(data: Option<Members>, key: string, fallback: seq<string>): seq<string>
  {
    match data
    case None => fallback
    case Some(d) =>
      match CleanedItems(Get(d, key, Array([])))
      case Some(items) => items
      case None => fallback
  }

  /** `_generate_taglines(...)`. */
  function Taglines(productName: string, pitch: string, audience: string, decode: Decoder, reply: Reply)
    : Result<seq<string>, PyError>
  {
    var response :- InvokeLlm(reply);
    Success(CleanedListOr(DecodeEmbedded(response, decode), "taglines", FallbackTaglines(productName, pitch, audience)))
  }

  /** `_generate_description(...)`: the whole reply, cleaned. */
  function Description(reply: Reply): Result<string, PyError>
  {
    var response :- InvokeLlm(reply);
    Success(CleanText(response))
  }

  /** `_generate_tweets(...)`. */
  function Tweets(productName: string, pitch: string, audience: string, decode: Decoder, reply: Reply)
    : Result<seq<string>, PyError>
  {
    var response :- InvokeLlm(reply);
    Success(CleanedListOr(DecodeEmbedded(response, decode), "tweets", FallbackTweets(productName, pitch, audience)))
  }

  /** `_generate_suggestions(...)`: the first five cleaned bullet lines, or the stock suggestions when there are none. */
  function Suggestions(productName: string, audience: string, reply: Reply): Result<seq<string>, PyError>
  {
    var response :- InvokeLlm(reply);
    var kept := Bullets(CleanedLines(Split(response, '\n')));
    Success(if kept != [] then Take(kept, 5) else FallbackSuggestions(productName, audience))
  }

  /** The data dict, or the first exception raised on the way, in the order of the calls. */
  function AssetContent(request: Request, decode: Decoder, taglineReply: Reply, descriptionReply: Reply,
                        tweetReply: Reply, suggestionReply: Reply): Result<Members, PyError>
  {
    var name := Field(request, "product_name", "");
    var pitch := Field(request, "elevator_pitch", "");
    var audience := Field(request, "target_audience", "");
    var taglines :- Taglines(name, pitch, audience, decode, taglineReply);
    var description :- Description(descriptionReply);
    var tweets :- Tweets(name, pitch, audience, decode, tweetReply);
    var suggestions :- Suggestions(name, audience, suggestionReply);
    Success(AssetData(taglines, description, tweets, suggestions))
  }

  /** What `process(request_data)` answers; the four replies are the model's answers to the four prompts. */
  function AssetReply(agentType: string, request: Request, decode: Decoder, taglineReply: Reply, descriptionReply: Reply,
                      tweetReply: Reply, suggestionReply: Reply): Envelope
  {
    match AssetContent(request, decode, taglineReply, descriptionReply, tweetReply, suggestionReply)
    case Failure(e) => Failed(agentType, AssetFailed + e.Message())
    case Success(data) => Succeeded(agentType, data)
  }

  class AssetPrepAgent {
    var agentType: string

    /** `__init__`: the derived type would be "assetprep"; the constructor sets "asset_prep". */
    constructor()
      ensures agentType == "asset_prep"
    {
      agentType := DefaultAgentType("AssetPrepAgent");
      agentType := "asset_prep";
    }

    /** `process(request_data)`, step by step. The tone reaches only the prompts. */
    method Process(request: Request, decode: Decoder, taglineReply: Reply, descriptionReply: Reply,
                   tweetReply: Reply, suggestionReply: Reply)
      returns (r: Envelope)
      ensures r == AssetReply(agentType, request, decode, taglineReply, descriptionReply, tweetReply, suggestionReply)
    {
      var productName := Field(request, "product_name", "");
      var pitch := Field(request, "elevator_pitch", "");
      var audience := Field(request, "target_audience", "");
      var tone := Field(request, "tone", "professional");
      var taglines := Taglines(productName, pitch, audience, decode, taglineReply);
      if taglines.Failure? {
        return Failed(agentType, AssetFailed + taglines.error.Message());
      }
      var description := Description(descriptionReply);
      if description.Failure? {
        return Failed(agentType, AssetFailed + description.error.Message());
      }
      var tweets := Tweets(productName, pitch, audience, decode, tweetReply);
      if tweets.Failure? {
        return Failed(agentType, AssetFailed + tweets.error.Message());
      }
      var suggestions := GenerateSuggestions(productName, audience, suggestionReply);
      if suggestions.Failure? {
        return Failed(agentType, AssetFailed + suggestions.error.Message());
      }
      r := Succeeded(agentType, AssetData(taglines.value, description.value, tweets.value, suggestions.value));
    }

    /** `_generate_suggestions(...)`: the bulleted lines of the reply, at most five, or the stock suggestions. */
    method GenerateSuggestions(productName: string, audience: string, reply: Reply)
      returns (r: Result<seq<string>, PyError>)
      ensures r == Suggestions(productName, audience, reply)
    {
      var response :- InvokeLlm(reply);
      var suggestions := ScanSuggestions(Split(response, '\n'));
      r := Success(if suggestions != [] then Take(suggestions, 5) else FallbackSuggestions(productName, audience));
    }

    /** The loop of `_generate_suggestions`: each line cleaned, kept when it is a bullet. */
    method ScanSuggestions(lines: seq<string>) returns (suggestions: seq<string>)
      ensures suggestions == Bullets(CleanedLines(lines))
    {
      suggestions := [];
      for i := 0 to |lines|
        invariant suggestions == Bullets(CleanedLines(lines)[..i])
      {
        CleanedStep(lines, i);
        var line := CleanText(lines[i]);
        if Bulleted(line) {
          suggestions := suggestions + [line];
        }
      }
      BulletsWhole(CleanedLines(lines));
    }
  }

  /**
   * A list read from decoded JSON: the cleaned strings of the entry in
   * order, an empty list when the entry is missing, and the fallback when
   * there is no JSON or the entry does not list strings only.
   */
  lemma CleanedList(data: Option<Members>, key: string, fallback: seq<string>)
    ensures data.None? ==> CleanedListOr(data, key, fallback) == fallback
    ensures data.Some? && !Has(data.value, key) ==> CleanedListOr(data, key, fallback) == []
    ensures data.Some? && Get(data.value, key, Array([])).Array? ==>
              var items := Get(data.value, key, Array([])).items;
              var r := CleanedListOr(data, key, fallback);
              && ((forall x <- items :: x.Str?) ==>
                    |r| == |items| && forall k | 0 <= k < |r| :: r[k] == CleanText(items[k].s) && NoMarkdown(r[k]))
              && (!(forall x <- items :: x.Str?) ==> r == fallback)
  {
  }

  /** The tagline fallback: the reply holds no JSON that decodes, or its "taglines" do not list strings only. */
  lemma TaglinesFallback(productName: string, pitch: string, audience: string, decode: Decoder, text: string)
    requires DecodeEmbedded(text, decode).None? ||
             CleanedItems(Get(DecodeEmbedded(text, decode).value, "taglines", Array([]))).None?
    ensures var r := Taglines(productName, pitch, audience, decode, Answered(text));
            && r == Success(FallbackTaglines(productName, pitch, audience))
            && |r.value| == 5
            && r.value[1] == "Revolutionary " + productName + " for " + audience
  {
    FallbackTaglinesQuote(productName, pitch, audience);
  }

  /** The tweet fallback: three stock tweets, each ending with the launch hashtags. */
  lemma TweetsFallback(productName: string, pitch: string, audience: string, decode: Decoder, text: string)
    requires DecodeEmbedded(text, decode).None? ||
             CleanedItems(Get(DecodeEmbedded(text, decode).value, "tweets", Array([]))).None?
    ensures var r := Tweets(productName, pitch, audience, decode, Answered(text));
            && r == Success(FallbackTweets(productName, pitch, audience))
            && |r.value| == 3
            && forall k | 0 <= k < 3 :: EndsWith(r.value[k], LaunchHashtags)
  {
    FallbackTweetsQuote(productName, pitch, audience);
  }

  /** The description is the reply cleaned: free of markdown characters and no longer than the reply. */
  lemma DescriptionClean(text: string)
    ensures var r := Description(Answered(text));
            r.Success? && NoMarkdown(r.value) && |r.value| <= |text| && r.value == CleanText(text)
  {
  }

  /** When no line of the reply cleans to a bullet, the suggestions are the five stock ones. */
  lemma SuggestionsFallback(productName: string, audience: string, text: string)
    requires forall j | 0 <= j < |Split(text, '\n')| :: !Bulleted(CleanText(Split(text, '\n')[j]))
    ensures Suggestions(productName, audience, Answered(text)) == Success(FallbackSuggestions(productName, audience))
  {
    NoBullets(CleanedLines(Split(text, '\n')));
  }

  /**
   * Otherwise they are the first five cleaned bullet lines, in the reply's
   * order: each one non-empty, opening with '-', '•' or a digit, and free of
   * markdown characters.
   */
  lemma SuggestionsKept(productName: string, audience: string, text: string)
    requires exists j | 0 <= j < |Split(text, '\n')| :: Bulleted(CleanText(Split(text, '\n')[j]))
    ensures var r := Suggestions(productName, audience, Answered(text));
            && r == Success(Take(Bullets(CleanedLines(Split(text, '\n'))), 5))
            && 1 <= |r.value| <= 5
            && forall k | 0 <= k < |r.value| :: Bulleted(r.value[k]) && NoMarkdown(r.value[k])
  {
    var kept := Bullets(CleanedLines(Split(text, '\n')));
    CleanBulletFound(text);
    SuggestionsAreBullets(productName, audience, text);
    CleanBullets(text);
    FirstFiveClean(kept);
  }

  /** A line that cleans to a bullet leaves a bullet among the cleaned lines. */
  lemma CleanBulletFound(text: string)
    requires exists j | 0 <= j < |Split(text, '\n')| :: Bulleted(CleanText(Split(text, '\n')[j]))
    ensures Bullets(CleanedLines(Split(text, '\n'))) != []
  {
    var lines := CleanedLines(Split(text, '\n'));
    var j :| 0 <= j < |Split(text, '\n')| && Bulleted(CleanText(Split(text, '\n')[j]));
    assert Bulleted(lines[j]);
    NoBullets(lines);
  }

  /** The first five of a non-empty run of bullets free of markdown are one to five such bullets. */
  lemma FirstFiveClean(kept: seq<string>)
    requires kept != []
    requires forall k | 0 <= k < |kept| :: Bulleted(kept[k]) && NoMarkdown(kept[k])
    ensures var r := Take(kept, 5);
            1 <= |r| <= 5 && forall k | 0 <= k < |r| :: Bulleted(r[k]) && NoMarkdown(r[k])
  {
    var r := Take(kept, 5);
    assert forall k | 0 <= k < |r| :: r[k] == kept[k];
  }

  /** With a bullet among the cleaned lines, the suggestions are the first five of them. */
  lemma SuggestionsAreBullets(productName: string, audience: string, text: string)
    requires Bullets(CleanedLines(Split(text, '\n'))) != []
    ensures Suggestions(productName, audience, Answered(text)) == Success(Take(Bullets(CleanedLines(Split(text, '\n'))), 5))
  {
  }

  /** The bullets among cleaned lines are free of markdown characters. */
  lemma CleanBullets(text: string)
    ensures var kept := Bullets(CleanedLines(Split(text, '\n')));
            forall k | 0 <= k < |kept| :: NoMarkdown(kept[k])
  {
    var cleaned := CleanedLines(Split(text, '\n'));
    var kept := Bullets(cleaned);
    forall k | 0 <= k < |kept| ensures NoMarkdown(kept[k]) {
      assert kept[k] in cleaned;
    }
  }

  /**
   * The answer succeeds exactly when all four model calls answer; then its
   * data holds the four asset keys. Otherwise it carries no data and the
   * error of the first failed call, after "Asset generation failed: ".
   */
  lemma AssetEnvelope(agentType: string, request: Request, decode: Decoder, taglineReply: Reply, descriptionReply: Reply,
                      tweetReply: Reply, suggestionReply: Reply)
    ensures var r := AssetReply(agentType, request, decode, taglineReply, descriptionReply, tweetReply, suggestionReply);
            && r.agentType == agentType
            && (r.success <==> taglineReply.Answered? && descriptionReply.Answered? && tweetReply.Answered? && suggestionReply.Answered?)
            && (r.success ==> r.data.Some? && r.error.None?)
            && (r.success ==> Keys(r.data.value) == AssetKeys)
            && (!r.success ==> r.data.None? && r.error.Some?)
            && (taglineReply.Raised? ==> r.error == Some(AssetFailed + ("LLM invocation failed: " + taglineReply.error)))
  {
    AssetContentOutcome(request, decode, taglineReply, descriptionReply, tweetReply, suggestionReply);
  }

  /** The content is built exactly when all four calls answer, and then has the four keys; a failed first call fails it. */
  lemma AssetContentOutcome(request: Request, decode: Decoder, taglineReply: Reply, descriptionReply: Reply,
                            tweetReply: Reply, suggestionReply: Reply)
    ensures var c := AssetContent(request, decode, taglineReply, descriptionReply, tweetReply, suggestionReply);
            && (c.Success? <==> taglineReply.Answered? && descriptionReply.Answered? && tweetReply.Answered? && suggestionReply.Answered?)
            && (c.Success? ==> Keys(c.value) == AssetKeys)
            && (taglineReply.Raised? ==> c.Failure? && c.error.Message() == "LLM invocation failed: " + taglineReply.error)
  {
  }
}
