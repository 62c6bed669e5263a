/** The text post-processing and dispatch of `src/services/aiService.js`:
    the keyword-density table, the hashtag filter, the external-link filter,
    the enhancement dispatch and the provider dispatch. Every call to a
    language model is the parameter `llm`: given a system prompt and the user
    message it answers with the reply text, or `None` when the call fails. */
module AiService {
  import opened Wrappers
  import opened Text

  // ---------------------------------------------------------------------
  // analyzeKeywordDensity

  /** One `[word, count]` pair of the frequency table. */
  datatype Entry = Entry(word: string, count: nat)

  /** The frequency table as the code builds it: the counted words in order
      of first appearance (the order `Object.entries` lists such keys in) and
      each one's count. */
  datatype Tally = Tally(order: seq<string>, counts: map<string, nat>)

  /** Only words longer than three characters are counted, the length
      measured as JavaScript's `length` in UTF-16 code units. */
  predicate Counted(word: string) {
    Utf16Length(word) > 3
  }

  /** Every listed word has a count. */
  predicate Keyed(t: Tally) {
    forall w :: w in t.order ==> w in t.counts
  }

  /** One step of the `forEach`: `wordFrequency[word] = (wordFrequency[word] || 0) + 1`
      when the word is counted. */
  function Step(t: Tally, word: string): (r: Tally)
    requires Keyed(t)
    ensures Keyed(r)
  {
    if !Counted(word) then t
    else if word in t.counts then Tally(t.order, t.counts[word := t.counts[word] + 1])
    else Tally(t.order + [word], t.counts[word := 1])
  }

  /** The table after the `forEach` has seen `words`. */
  function TallyOf(words: seq<string>): (r: Tally)
    ensures Keyed(r)
  {
    if words == [] then Tally([], map[])
    else Step(TallyOf(words[..|words| - 1]), words[|words| - 1])
  }

  predicate Distinct<T(==)>(s: seq<T>) {
    forall i, j :: 0 <= i < j < |s| ==> s[i] != s[j]
  }

  /** The number of occurrences of `w` in `words`. */
  function Occurrences(words: seq<string>, w: string): nat {
    multiset(words)[w]
  }

  /** What the table holds: its keys are exactly the counted words of the
      text, each listed once, and each key's count is its number of
      occurrences. */
  ghost predicate TableOf(t: Tally, words: seq<string>) {
    && Distinct(t.order)
    && (forall w :: w in t.counts <==> w in t.order)
    && (forall w :: w in t.counts <==> Counted(w) && w in words)
    && (forall w :: w in t.counts ==> t.counts[w] == Occurrences(words, w))
  }

  lemma {:induction false} TallyOfIsTable(words: seq<string>)
    ensures TableOf(TallyOf(words), words)
  {
    if words != [] {
      var pre, w := words[..|words| - 1], words[|words| - 1];
      assert words == pre + [w];
      TallyOfIsTable(pre);
      StepIsTable(TallyOf(pre), pre, w);
    }
  }

  /** One step of the `forEach` keeps the table true to the words seen. */
  lemma StepIsTable(t: Tally, pre: seq<string>, w: string)
    requires Keyed(t) && TableOf(t, pre)
    ensures TableOf(Step(t, w), pre + [w])
  {
    assert multiset(pre + [w]) == multiset(pre) + multiset{w};
    if Counted(w) && w !in t.counts {
      var order := t.order + [w];
      forall i, j | 0 <= i < j < |order| ensures order[i] != order[j] {
        if j == |order| - 1 {
          assert order[i] == t.order[i];
          assert t.order[i] in t.order;
        }
      }
    }
  }

  /** `[word, count]` for every key, in table order. */
  function Entries(t: Tally): (r: seq<Entry>)
    requires Keyed(t)
    ensures |r| == |t.order|
    ensures forall i :: 0 <= i < |r| ==> r[i] == Entry(t.order[i], t.counts[t.order[i]])
  {
    seq(|t.order|, i requires 0 <= i < |t.order| => Entry(t.order[i], t.counts[t.order[i]]))
  }

  /** Non-increasing by count. */
  predicate SortedDesc(s: seq<Entry>) {
    forall i, j :: 0 <= i < j < |s| ==> s[i].count >= s[j].count
  }

  /** Puts `e`, which came before every entry of `s`, in front of the first
      entry whose count is not greater than its own: so ties keep their
      order, as `Array.prototype.sort` does. */
  function Insert(e: Entry, s: seq<Entry>): (r: seq<Entry>)
    ensures |r| == |s| + 1
    ensures r[0] == e || (s != [] && r[0] == s[0])
  {
    if s == [] || s[0].count <= e.count then [e] + s
    else [s[0]] + Insert(e, s[1..])
  }

  /** Inserting into a list sorted by count keeps it sorted and adds exactly
      the one entry. */
  lemma {:induction false} InsertSorted(e: Entry, s: seq<Entry>)
    requires SortedDesc(s)
    ensures SortedDesc(Insert(e, s))
    ensures multiset(Insert(e, s)) == multiset(s) + multiset{e}
  {
    if s == [] || s[0].count <= e.count {
      ConsSorted(e, s);
    } else {
      var rest := Insert(e, s[1..]);
      assert s == [s[0]] + s[1..];
      assert SortedDesc(s[1..]);
      InsertSorted(e, s[1..]);
      assert rest[0].count <= s[0].count;
      ConsSorted(s[0], rest);
      assert Insert(e, s) == [s[0]] + rest;
    }
  }

  /** An entry at least as large as the head of a sorted list can go in
      front of it. */
  lemma ConsSorted(x: Entry, t: seq<Entry>)
    requires SortedDesc(t)
    requires t == [] || t[0].count <= x.count
    ensures SortedDesc([x] + t)
  {
    var r := [x] + t;
    forall i, j | 0 <= i < j < |r| ensures r[i].count >= r[j].count {
      if i == 0 {
        assert r[j] == t[j - 1] && t[j - 1].count <= t[0].count;
      } else {
        assert r[i] == t[i - 1] && r[j] == t[j - 1];
      }
    }
  }

  /** `.sort(([, a], [, b]) => b - a)`: a stable sort by count, largest first. */
  function SortDesc(s: seq<Entry>): (r: seq<Entry>)
    ensures SortedDesc(r)
    ensures multiset(r) == multiset(s)
    ensures |r| == |s|
  {
    if s == [] then []
    else
      assert s == [s[0]] + s[1..];
      var rest := SortDesc(s[1..]);
      InsertSorted(s[0], rest);
      Insert(s[0], rest)
  }

  /** How many keywords the density keeps. */
  const TopKeywords: nat := 10

  /** What `analyzeKeywordDensity` reports: the number of tokens, and the
      top keywords with their counts, in rank order. The percentage the code
      prints for each is `count / wordCount * 100`, rounded to one decimal. */
  datatype Density = Density(wordCount: nat, top: seq<Entry>)

  /** The tokens of the content: lower-cased and split on white-space runs. */
  function Tokens(content: string): seq<string> {
    SplitWs(ToLower(content))
  }

  /** The ranking the code computes from the table. */
  function Rank(t: Tally): (r: seq<Entry>)
    requires Keyed(t)
    ensures |r| == if |t.order| < TopKeywords then |t.order| else TopKeywords
  {
    Take(SortDesc(Entries(t)), TopKeywords)
  }

  /** `analyzeKeywordDensity(content)`: `wordCount` counts every token, short
      ones included; the table is built by one pass over the tokens; then
      the entries are sorted by count and the first ten kept. */
  method AnalyzeKeywordDensity(content: string) returns (d: Density)
    ensures d.wordCount == |Tokens(content)|
    ensures TableOf(TallyOf(Tokens(content)), Tokens(content))
    ensures d.top == Rank(TallyOf(Tokens(content)))
  {
    var words := Tokens(content);
    var wordCount := |words|;
    var order: seq<string> := [];
    var frequency: map<string, nat> := map[];
    for i := 0 to |words|
      invariant Tally(order, frequency) == TallyOf(words[..i])
    {
      var word := words[i];
      assert words[..i + 1] == words[..i] + [word];
      assert (words[..i] + [word])[..i] == words[..i];
      if Utf16Length(word) > 3 {
        if word in frequency {
          frequency := frequency[word := frequency[word] + 1];
        } else {
          order := order + [word];
          frequency := frequency[word := 1];
        }
      }
    }
    assert words[..|words|] == words;
    TallyOfIsTable(words);
    var ranked := Take(SortDesc(Entries(Tally(order, frequency))), TopKeywords);
    return Density(wordCount, ranked);
  }

  /** The ranking is the first ten entries of the sorted table, or all of
      them when there are fewer, in non-increasing order of count; each is a
      distinct word of the table with its true count; and no entry left out
      has a greater count than any entry kept. */
  lemma RankIsTop(words: seq<string>)
    ensures var t := TallyOf(words);
      var all := SortDesc(Entries(t));
      var top := Rank(t);
      && |top| == (if |all| < TopKeywords then |all| else TopKeywords)
      && top == all[..|top|]
      && SortedDesc(top)
      && Distinct(top)
      && (forall i :: 0 <= i < |top| ==>
            Counted(top[i].word) && top[i].word in words
            && top[i].count == Occurrences(words, top[i].word))
      && multiset(all) == multiset(Entries(t))
      && (forall i, j :: 0 <= i < |top| && |top| <= j < |all| ==> all[j].count <= top[i].count)
  {
    var t := TallyOf(words);
    var es := Entries(t);
    var all := SortDesc(es);
    var top := Rank(t);
    assert top == Take(all, TopKeywords);
    TakeOfSorted(all, TopKeywords);
    RankedEntries(words, es, all, top);
  }

  /** Keeping the first `n` of a list sorted by count keeps the largest
      counts. */
  lemma TakeOfSorted(all: seq<Entry>, n: nat)
    requires SortedDesc(all)
    ensures var top := Take(all, n);
      && top == all[..|top|]
      && SortedDesc(top)
      && (forall i, j :: 0 <= i < |top| && |top| <= j < |all| ==> all[j].count <= top[i].count)
  {
  }

  /** The kept entries of the sorted table are distinct, counted words of
      the text with their true counts. */
  lemma RankedEntries(words: seq<string>, es: seq<Entry>, all: seq<Entry>, top: seq<Entry>)
    requires es == Entries(TallyOf(words))
    requires multiset(all) == multiset(es)
    requires top <= all
    ensures Distinct(top)
    ensures forall i :: 0 <= i < |top| ==>
      Counted(top[i].word) && top[i].word in words && top[i].count == Occurrences(words, top[i].word)
  {
    EntriesDistinct(words);
    DistinctPermutation(es, all);
    forall i | 0 <= i < |top|
      ensures Counted(top[i].word) && top[i].word in words && top[i].count == Occurrences(words, top[i].word)
    {
      assert top[i] == all[i];
      assert all[i] in multiset(es);
      EntryIsCount(words, top[i]);
    }
    forall i, j | 0 <= i < j < |top| ensures top[i] != top[j] {
      assert top[i] == all[i] && top[j] == all[j];
    }
  }

  /** The table's entries are distinct, since its words are. */
  lemma EntriesDistinct(words: seq<string>)
    ensures Distinct(Entries(TallyOf(words)))
  {
    TallyOfIsTable(words);
    var t := TallyOf(words);
    var es := Entries(t);
    forall i, j | 0 <= i < j < |es| ensures es[i] != es[j] {
      assert t.order[i] != t.order[j];
    }
  }

  /** Each entry of the table is a counted word of the text with its number
      of occurrences. */
  lemma EntryIsCount(words: seq<string>, e: Entry)
    requires e in Entries(TallyOf(words))
    ensures Counted(e.word) && e.word in words && e.count == Occurrences(words, e.word)
  {
    TallyOfIsTable(words);
    var t := TallyOf(words);
    var k :| 0 <= k < |Entries(t)| && Entries(t)[k] == e;
    assert e.word == t.order[k] && e.word in t.counts;
  }

  // ---------------------------------------------------------------------
  // generateHashtags

  /** How many hashtags are kept. */
  const MaxHashtags: nat := 8

  predicate IsHashtag(token: string) {
    StartsWith(token, "#")
  }

  /** `generateHashtags(content)`, after the model's reply: the reply's
      white-space separated tokens that start with '#', in reply order, at
      most eight of them; a failed call is "Failed to generate hashtags". */
  function GenerateHashtags(reply: Option<string>): (r: Result<seq<string>, string>)
    ensures r.Success? <==> reply.Some?
    ensures r.Failure? ==> r.error == "Failed to generate hashtags"
    ensures r.Success? ==>
      && |r.value| <= MaxHashtags
      && r.value <= Filter(SplitWs(reply.value), IsHashtag)
      && |r.value| == (if |Filter(SplitWs(reply.value), IsHashtag)| < MaxHashtags
                       then |Filter(SplitWs(reply.value), IsHashtag)| else MaxHashtags)
      && forall i :: 0 <= i < |r.value| ==> IsHashtag(r.value[i]) && NoSpace(r.value[i])
  {
    match reply
    case None => Failure("Failed to generate hashtags")
    case Some(text) => Success(Take(Filter(SplitWs(text), IsHashtag), MaxHashtags))
  }

  /** Every hashtag of a reply with at most eight of them is returned. */
  lemma HashtagsKept(text: string, tag: string)
    requires tag in SplitWs(text) && IsHashtag(tag)
    requires |Filter(SplitWs(text), IsHashtag)| <= MaxHashtags
    ensures tag in GenerateHashtags(Some(text)).value
  {
    FilterKeeps(SplitWs(text), IsHashtag, tag);
  }

  // ---------------------------------------------------------------------
  // findExternalLinks

  /** Some excluded domain occurs in `link`. */
  predicate Excluded(link: string, excludeDomains: seq<string>) {
    exists d :: d in excludeDomains && Includes(link, d)
  }

  predicate NonEmpty(line: string) {
    line != []
  }

  function TrimAll(lines: seq<string>): (r: seq<string>)
    ensures |r| == |lines|
    ensures forall i :: 0 <= i < |r| ==> r[i] == Trim(lines[i])
  {
    seq(|lines|, i requires 0 <= i < |lines| => Trim(lines[i]))
  }

  /** The reply's lines: `split('\n')` then `filter(Boolean)`. */
  function ReplyLines(text: string): seq<string> {
    Filter(SplitOn(text, '\n'), NonEmpty)
  }

  /** `findExternalLinks(content, excludeDomains)`, after the model's reply:
      the non-empty lines, trimmed, without those that contain an excluded
      domain as a substring; a failed call is "Failed to find external links".
      Trimming comes after the emptiness test, so a line of blanks survives
      as "". */
  function FindExternalLinks(reply: Option<string>, excludeDomains: seq<string>): (r: Result<seq<string>, string>)
    ensures r.Success? <==> reply.Some?
    ensures r.Failure? ==> r.error == "Failed to find external links"
    ensures r.Success? ==>
      && |r.value| <= |ReplyLines(reply.value)|
      && forall i :: 0 <= i < |r.value| ==>
           && IsTrimmed(r.value[i])
           && !Excluded(r.value[i], excludeDomains)
           && r.value[i] in TrimAll(ReplyLines(reply.value))
  {
    match reply
    case None => Failure("Failed to find external links")
    case Some(text) =>
      Success(Filter(TrimAll(ReplyLines(text)), NotExcluded(excludeDomains)))
  }

  /** The test of the second `filter`. */
  function NotExcluded(excludeDomains: seq<string>): string -> bool {
    (link: string) => !Excluded(link, excludeDomains)
  }

  lemma TrimAllAppend(x: seq<string>, y: seq<string>)
    ensures TrimAll(x + y) == TrimAll(x) + TrimAll(y)
  {
  }

  /** The reply is read line by line: the links of two lines of text
      separated by a newline are those of the first followed by those of
      the second, so order and repeated lines are kept. */
  lemma ExternalLinksAppend(a: string, b: string, excludeDomains: seq<string>)
    ensures FindExternalLinks(Some(a + "\n" + b), excludeDomains).value ==
            FindExternalLinks(Some(a), excludeDomains).value + FindExternalLinks(Some(b), excludeDomains).value
  {
    var keep := NotExcluded(excludeDomains);
    SplitOnAround(a, '\n', b);
    FilterAppend(SplitOn(a, '\n'), SplitOn(b, '\n'), NonEmpty);
    TrimAllAppend(ReplyLines(a), ReplyLines(b));
    FilterAppend(TrimAll(ReplyLines(a)), TrimAll(ReplyLines(b)), keep);
  }

  /** A single line gives its trimmed text when it is non-empty and the
      trimmed text contains no excluded domain, and nothing otherwise. */
  lemma ExternalLinksLine(line: string, excludeDomains: seq<string>)
    requires '\n' !in line
    ensures FindExternalLinks(Some(line), excludeDomains).value ==
            if line != "" && !Excluded(Trim(line), excludeDomains) then [Trim(line)] else []
  {
    SplitOnWithout(line, '\n');
    if line != "" {
      assert ReplyLines(line) == [line];
      assert TrimAll([line]) == [Trim(line)];
    }
  }

  /** A repeated line is returned as often as it occurs. */
  lemma RepeatedLinkKept(line: string, excludeDomains: seq<string>)
    requires '\n' !in line && line != ""
    requires !Excluded(Trim(line), excludeDomains)
    ensures FindExternalLinks(Some(line + "\n" + line), excludeDomains).value == [Trim(line), Trim(line)]
  {
    ExternalLinksAppend(line, line, excludeDomains);
    ExternalLinksLine(line, excludeDomains);
  }

  /** Conversely, every non-empty line whose trimmed text contains no
      excluded domain is returned. */
  lemma LinkKept(text: string, excludeDomains: seq<string>, line: string)
    requires line in SplitOn(text, '\n') && line != []
    requires !Excluded(Trim(line), excludeDomains)
    ensures Trim(line) in FindExternalLinks(Some(text), excludeDomains).value
  {
    FilterKeeps(SplitOn(text, '\n'), NonEmpty, line);
    var lines := ReplyLines(text);
    var k :| 0 <= k < |lines| && lines[k] == line;
    assert TrimAll(lines)[k] == Trim(line);
    FilterKeeps(TrimAll(lines), NotExcluded(excludeDomains), Trim(line));
  }

  /** Every string contains the empty string, so an empty entry among the
      excluded domains removes every link. */
  lemma EmptyDomainExcludesAll(text: string, excludeDomains: seq<string>)
    requires "" in excludeDomains
    ensures FindExternalLinks(Some(text), excludeDomains).value == []
  {
    var r := FindExternalLinks(Some(text), excludeDomains).value;
    if r != [] {
      assert Includes(r[0], "");
    }
  }

  // ---------------------------------------------------------------------
  // enhanceContent

  /** The chat request the enhancement sends: model, system prompt, user
      message and token limit (the 0.7 temperature is not modelled). */
  datatype ChatRequest = ChatRequest(model: string, system: string, user: string, maxTokens: nat)

  /** The system prompt of each enhancement type, or `None` for a type the
      switch does not know. `tone` is interpolated as is; an absent tone
      reads "undefined". */
  predicate KnownEnhancement(kind: string) {
    || kind == "rephrase" || kind == "simplify" || kind == "expand"
    || kind == "tone" || kind == "grammar" || kind == "enhance"
  }

  function EnhancementPrompt(kind: string, tone: Option<string>): (r: Option<string>)
    ensures r.Some? <==> KnownEnhancement(kind)
  {
    if kind == "rephrase" then
      Some("Rephrase the following content while maintaining its meaning and key points.")
    else if kind == "simplify" then
      Some("Simplify the following content to make it more accessible and easier to understand.")
    else if kind == "expand" then
      Some("Expand on the following content by adding more details, examples, and explanations.")
    else if kind == "tone" then
      Some("Adjust the tone of the following content to be more " + tone.GetOr("undefined")
           + " while preserving the main message.")
    else if kind == "grammar" then
      Some("Correct any grammatical errors in the following content while maintaining its original style.")
    else if kind == "enhance" then
      Some("Enhance the following content by improving its clarity, structure, and impact while maintaining its core message.")
    else
      None
  }

  /** `enhanceContent(content, {type, tone})`: a known type sends the content,
      unchanged, as the user message under that type's system prompt to
      gpt-4 with a 1000-token limit, and returns the reply; an unknown type
      and a failed call both end in "Failed to enhance content". */
  function EnhanceContent(content: string, kind: string, tone: Option<string>,
                          llm: ChatRequest -> Option<string>): (r: Result<string, string>)
    ensures r.Failure? ==> r.error == "Failed to enhance content"
    ensures r.Success? <==>
      EnhancementPrompt(kind, tone).Some?
      && llm(ChatRequest("gpt-4", EnhancementPrompt(kind, tone).value, content, 1000)).Some?
    ensures r.Success? ==>
      r.value == llm(ChatRequest("gpt-4", EnhancementPrompt(kind, tone).value, content, 1000)).value
  {
    match EnhancementPrompt(kind, tone)
    case None => Failure("Failed to enhance content")
    case Some(system) =>
      match llm(ChatRequest("gpt-4", system, content, 1000))
      case None => Failure("Failed to enhance content")
      case Some(reply) => Success(reply)
  }

  // ---------------------------------------------------------------------
  // initializeModel

  /** An HTTP header; an unset environment variable gives an undefined value. */
  datatype Header = Header(name: string, value: Option<string>)

  /** The client `initializeModel` builds: an SDK client for OpenAI or
      Anthropic holding the key, or an HTTP client with a base URL and
      headers. */
  datatype ModelClient =
    | OpenAiClient(apiKey: string)
    | AnthropicClient(apiKey: string)
    | HttpClient(baseUrl: string, headers: seq<Header>)

  const BearerPrefix := "Bearer "

  /** `initializeModel(provider, model, apiKey)`; `appUrl` is `APP_URL`. */
  function InitializeModel(provider: string, apiKey: string, appUrl: Option<string>): (r: Result<ModelClient, string>)
    ensures r.Success? <==> provider in {"openai", "anthropic", "openrouter", "perplexity"}
    ensures r.Failure? ==> r.error == "Invalid provider"
    ensures provider == "openai" ==> r.value == OpenAiClient(apiKey)
    ensures provider == "anthropic" ==> r.value == AnthropicClient(apiKey)
    ensures provider == "openrouter" ==>
      && r.value.HttpClient?
      && r.value.baseUrl == "https://openrouter.ai/api/v1"
      && Header("HTTP-Referer", appUrl) in r.value.headers
    ensures provider == "perplexity" ==>
      && r.value.HttpClient?
      && r.value.baseUrl == "https://api.perplexity.ai"
  {
    match provider
    case "openai" => Success(OpenAiClient(apiKey))
    case "anthropic" => Success(AnthropicClient(apiKey))
    case "openrouter" =>
      Success(HttpClient("https://openrouter.ai/api/v1",
        [Header("Authorization", Some(BearerPrefix + apiKey)), Header("HTTP-Referer", appUrl)]))
    case "perplexity" =>
      Success(HttpClient("https://api.perplexity.ai", [Header("Authorization", Some(BearerPrefix + apiKey))]))
    case _ => Failure("Invalid provider")
  }

  /** The key a client authenticates with: the SDK's key, or the bearer
      token of its first `Authorization` header. */
  function ClientKey(c: ModelClient): Option<string> {
    match c
    case OpenAiClient(k) => Some(k)
    case AnthropicClient(k) => Some(k)
    case HttpClient(_, headers) => BearerToken(headers)
  }

  function BearerToken(headers: seq<Header>): Option<string> {
    if headers == [] then None
    else if headers[0].name == "Authorization" && headers[0].value.Some?
            && StartsWith(headers[0].value.value, BearerPrefix) then
      Some(headers[0].value.value[|BearerPrefix|..])
    else BearerToken(headers[1..])
  }

  /** Whichever provider is chosen, the client authenticates with exactly the
      key it was given. */
  lemma InitializeModelKeepsKey(provider: string, apiKey: string, appUrl: Option<string>)
    requires InitializeModel(provider, apiKey, appUrl).Success?
    ensures ClientKey(InitializeModel(provider, apiKey, appUrl).value) == Some(apiKey)
  {
    assert (BearerPrefix + apiKey)[|BearerPrefix|..] == apiKey;
  }

  /** A sequence whose elements are distinct holds each value at most once. */
  lemma {:induction false} DistinctAtMostOnce<T>(s: seq<T>, x: T)
    requires Distinct(s)
    ensures multiset(s)[x] <= 1
  {
    if s != [] {
      assert s == [s[0]] + s[1..];
      DistinctAtMostOnce(s[1..], x);
      if x == s[0] {
        assert x !in s[1..] by {
          forall k | 1 <= k < |s| ensures s[k] != x {
            assert s[0] != s[k];
          }
        }
      }
    }
  }

  lemma TwiceCounted<T>(s: seq<T>, i: int, j: int)
    requires 0 <= i < j < |s| && s[i] == s[j]
    ensures multiset(s)[s[i]] >= 2
  {
    assert s == s[..j] + [s[j]] + s[j + 1..];
    assert s[i] in s[..j];
  }

  /** Reordering keeps elements distinct. */
  lemma DistinctPermutation<T>(a: seq<T>, b: seq<T>)
    requires Distinct(a) && multiset(a) == multiset(b)
    ensures Distinct(b)
  {
    forall i, j | 0 <= i < j < |b| ensures b[i] != b[j] {
      if b[i] == b[j] {
        TwiceCounted(b, i, j);
        DistinctAtMostOnce(a, b[i]);
      }
    }
  }
}
