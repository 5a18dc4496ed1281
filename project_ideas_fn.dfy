/** The edge function behind "Generate Ideas"
    (supabase/functions/generate-project-ideas/index.ts): it validates the
    request, asks the AI gateway for ideas, digs the JSON out of the model's
    reply and normalises every idea. The environment, the gateway's reply,
    `JSON.parse` and the clock are inputs. */
module ProjectIdeasFn {
  import opened Seqs
  import opened JsText
  import opened Json

  const Fence: string := "```"

  // ---------------------------------------------------------------------
  // Extracting the JSON text from the model's reply

  /** Three backticks start at position `i`. */
  predicate FenceAt(s: string, i: int)
  {
    0 <= i && i + 3 <= |s| && s[i] == '`' && s[i + 1] == '`' && s[i + 2] == '`'
  }

  /** The letters `json` start at position `i`. */
  predicate JsonTagAt(s: string, i: int)
  {
    0 <= i && i + 4 <= |s| && s[i] == 'j' && s[i + 1] == 's' && s[i + 2] == 'o' && s[i + 3] == 'n'
  }

  /** A fence is an occurrence of the text "```". */
  lemma FenceAtIsOccurrence(s: string, i: int)
    ensures FenceAt(s, i) <==> OccursAt(s, Fence, i)
  {
    if 0 <= i && i + 3 <= |s| {
      var w := s[i..i + 3];
      assert w[0] == s[i] && w[1] == s[i + 1] && w[2] == s[i + 2];
    }
  }

  /** The first fence at or after `from`, as a left-to-right scan of the
      regular expression engine meets it. */
  function FindFence(s: string, from: nat): (r: Option<nat>)
    requires from <= |s|
    ensures r.Some? ==> from <= r.value && FenceAt(s, r.value)
    ensures forall j :: from <= j && (r.None? || j < r.value) ==> !FenceAt(s, j)
    decreases |s| - from
  {
    if FenceAt(s, from) then Some(from)
    else if from == |s| then None
    else FindFence(s, from + 1)
  }

  /** The scan finds a given fence when no fence starts between `from` and
      it. */
  lemma {:induction false} FindFenceFinds(s: string, from: nat, at: nat)
    requires from <= at && FenceAt(s, at)
    requires forall j :: from <= j < at ==> !FenceAt(s, j)
    ensures FindFence(s, from) == Some(at)
    decreases at - from
  {
    if from < at {
      FindFenceFinds(s, from + 1, at);
    }
  }

  /** Positions of a match of /```(?:json)?\s*([\s\S]*?)```/: the opening
      fence, the start of the captured text and the closing fence. */
  datatype FenceMatch = FenceMatch(open: nat, captureStart: nat, close: nat)

  /** Two fences, the second starting at least three characters after the
      first. */
  predicate HasFencePair(content: string)
  {
    exists i, k :: 0 <= i && i + 3 <= k <= |content| && FenceAt(content, i) && FenceAt(content, k)
  }

  /** The leftmost match of the regular expression: it opens at the first
      fence, skips an optional `json` tag and then white space, and closes
      at the first fence after that. */
  function MatchFence(content: string): (m: Option<FenceMatch>)
    ensures m.Some? <==> HasFencePair(content)
    ensures m.Some? ==>
              && FenceAt(content, m.value.open)
              && (forall j :: 0 <= j < m.value.open ==> !FenceAt(content, j))
              && m.value.open + 3 <= m.value.captureStart <= m.value.close
              && FenceAt(content, m.value.close)
              && (forall j :: m.value.captureStart <= j < m.value.close ==> !FenceAt(content, j))
    ensures m.Some? ==>
              m.value.captureStart
              == SkipSpace(content, if JsonTagAt(content, m.value.open + 3) then m.value.open + 7 else m.value.open + 3)
    ensures m.Some? ==> FindFence(content, m.value.captureStart) == Some(m.value.close)
  {
    match FindFence(content, 0)
    case None => None
    case Some(i) =>
      var afterTag := if JsonTagAt(content, i + 3) then i + 7 else i + 3;
      var start := SkipSpace(content, afterTag);
      var run := content[afterTag..start];
      assert forall j :: i + 3 <= j < start ==> !FenceAt(content, j) by {
        forall j | i + 3 <= j < start ensures content[j] != '`' {
          if afterTag <= j {
            assert content[j] == run[j - afterTag];
          }
        }
      }
      match FindFence(content, start)
      case None => None
      case Some(k) => Some(FenceMatch(i, start, k))
  }

  /** `jsonMatch[1].trim()`, where `jsonMatch` is the match or, without
      one, `[null, content]`. */
  function ExtractJsonText(content: string): string
  {
    match MatchFence(content)
    case Some(m) => Trim(content[m.captureStart..m.close])
    case None => Trim(content)
  }

  /** A reply without two fences, say one cut off after its opening fence,
      is parsed whole, trimmed. */
  lemma UnfencedReplyIsTrimmed(content: string)
    requires !HasFencePair(content)
    ensures ExtractJsonText(content) == Trim(content)
  {
  }

  /** The white space run ends at or before any character that is not
      white space. */
  lemma {:induction false} SkipSpaceStopsAt(s: string, from: nat, k: nat)
    requires from <= k < |s| && !IsJsSpace(s[k])
    ensures SkipSpace(s, from) <= k
    decreases k - from
  {
    if from < k {
      SkipSpaceStopsAt(s, from + 1, k);
    }
  }

  /** A reply that wraps a body in a fenced block, tagged `json` or not, is
      parsed as the trimmed body, whatever follows the block. The text
      before the block and the body may hold backticks, but no three in a
      row, counting those that run into the fence after them (a fence
      there would open or close the block earlier). */
  lemma FencedReplyYieldsBody(pre: string, tag: string, body: string, post: string)
    requires forall i :: 0 <= i < |pre| ==> !FenceAt(pre + Fence, i)
    requires forall i :: 0 <= i < |body| ==> !FenceAt(body + Fence, i)
    requires tag == "json" || (tag == "" && !JsonTagAt(body, 0))
    ensures ExtractJsonText(pre + Fence + tag + body + Fence + post) == Trim(body)
  {
    var content := pre + Fence + tag + body + Fence + post;
    FencedLayout(pre, tag, body, post);
    NoFenceWithin(content, pre, 0);
    NoFenceWithin(content, body, |pre| + 3 + |tag|);
    FencedBodyExtracted(content, |pre|, tag, body);
  }

  /** A text `x` sitting at `at` in `content`, right before a fence, starts
      no fence in `content` when it starts none in `x + Fence`. */
  lemma NoFenceWithin(content: string, x: string, at: nat)
    requires at + |x| + 3 <= |content|
    requires forall k :: 0 <= k < |x| ==> content[at + k] == x[k]
    requires FenceAt(content, at + |x|)
    requires forall i :: 0 <= i < |x| ==> !FenceAt(x + Fence, i)
    ensures forall j :: at <= j < at + |x| ==> !FenceAt(content, j)
  {
    var y := x + Fence;
    forall j | at <= j < at + |x| ensures !FenceAt(content, j) {
      var i := j - at;
      assert !FenceAt(y, i);
      forall p | j <= p < j + 3 ensures content[p] == y[p - at] {
        if p - at < |x| {
          assert content[at + (p - at)] == x[p - at];
        } else {
          assert y[p - at] == Fence[p - at - |x|];
        }
      }
    }
  }

  /** The same on the positions alone: no fence before the opening one at
      `o`, the tag and then the body after it, no fence starting in the
      body, and a fence right after it. */
  lemma FencedBodyExtracted(content: string, o: nat, tag: string, body: string)
    requires o + 3 + |tag| + |body| + 3 <= |content|
    requires forall k :: 0 <= k < o ==> !FenceAt(content, k)
    requires FenceAt(content, o)
    requires forall k :: 0 <= k < |tag| ==> content[o + 3 + k] == tag[k]
    requires forall k :: 0 <= k < |body| ==> content[o + 3 + |tag| + k] == body[k]
    requires forall j :: o + 3 + |tag| <= j < o + 3 + |tag| + |body| ==> !FenceAt(content, j)
    requires FenceAt(content, o + 3 + |tag| + |body|)
    requires tag == "json" || (tag == "" && !JsonTagAt(body, 0))
    ensures ExtractJsonText(content) == Trim(body)
  {
    var b := o + 3 + |tag|;
    var c := b + |body|;
    assert content[b..c] == body;
    FindFenceFinds(content, 0, o);
    assert JsonTagAt(content, o + 3) == (tag == "json") by {
      if tag == "json" {
        assert content[o + 3] == tag[0] && content[o + 4] == tag[1];
        assert content[o + 5] == tag[2] && content[o + 6] == tag[3];
      } else if |body| >= 4 {
        assert content[b] == body[0] && content[b + 1] == body[1];
        assert content[b + 2] == body[2] && content[b + 3] == body[3];
      } else {
        assert content[c] == '`';
      }
    }
    CaptureExtracted(content, o, b, c);
  }

  /** Where each part of `pre + Fence + tag + body + Fence + post` sits. */
  lemma FencedLayout(pre: string, tag: string, body: string, post: string)
    ensures var content := pre + Fence + tag + body + Fence + post;
            var b := |pre| + 3 + |tag|;
            && |content| == b + |body| + 3 + |post|
            && (forall k :: 0 <= k < |pre| ==> content[k] == pre[k])
            && FenceAt(content, |pre|)
            && (forall k :: 0 <= k < |tag| ==> content[|pre| + 3 + k] == tag[k])
            && (forall k :: 0 <= k < |body| ==> content[b + k] == body[k])
            && FenceAt(content, b + |body|)
  {
    var head := pre + Fence + tag;
    var content := pre + Fence + tag + body + Fence + post;
    assert content == head + body + (Fence + post);
    assert head == pre + (Fence + tag);
  }

  /** With the opening fence at `o`, the tag read up to `b` and no fence
      starting between `b` and a fence at `c`, the extracted text is the
      trimmed text between `b` and `c`. */
  lemma CaptureExtracted(content: string, o: nat, b: nat, c: nat)
    requires FindFence(content, 0) == Some(o)
    requires b == (if JsonTagAt(content, o + 3) then o + 7 else o + 3)
    requires b <= c && FenceAt(content, c)
    requires forall j :: b <= j < c ==> !FenceAt(content, j)
    ensures ExtractJsonText(content) == Trim(content[b..c])
  {
    SkipSpaceStopsAt(content, b, c);
    var start := SkipSpace(content, b);
    FindFenceFinds(content, start, c);
    MatchFenceFound(content, o, b, c);
    CaptureSkipsLeadingSpace(content, b, c);
  }

  /** Given where the opening fence, the end of the tag and the closing
      fence are, the trimmed capture between them is what is extracted. */
  lemma MatchFenceFound(content: string, o: nat, b: nat, c: nat)
    requires FindFence(content, 0) == Some(o)
    requires b == (if JsonTagAt(content, o + 3) then o + 7 else o + 3)
    requires b <= c <= |content| && SkipSpace(content, b) <= c
    requires FindFence(content, SkipSpace(content, b)) == Some(c)
    ensures ExtractJsonText(content) == Trim(content[SkipSpace(content, b)..c])
  {
    assert MatchFence(content) == Some(FenceMatch(o, SkipSpace(content, b), c));
  }

  /** Trimming the text from `b` to `c` gives the same as trimming it from
      the end of the white space run at `b`. */
  lemma CaptureSkipsLeadingSpace(content: string, b: nat, c: nat)
    requires b <= c <= |content| && SkipSpace(content, b) <= c
    ensures Trim(content[SkipSpace(content, b)..c]) == Trim(content[b..c])
  {
    var start := SkipSpace(content, b);
    var capture := content[b..c];
    assert capture[start - b..] == content[start..c];
    assert AllSpace(capture[..start - b]) by {
      assert capture[..start - b] == content[b..start];
    }
    TrimSkipsLeadingSpace(capture, start - b);
  }

  // ---------------------------------------------------------------------
  // Normalising the ideas

  /** One element of `formattedIdeas`; the copied fields keep whatever
      JavaScript value the model supplied. */
  datatype FormattedIdea = FormattedIdea(id: string, title: Json, description: Json, difficulty: Json,
                                         tags: Json, codeSnippet: Json)

  /** `${Date.now()}-${index}`. */
  function IdeaId(now: nat, index: nat): string
  {
    NatToString(now) + "-" + NatToString(index)
  }

  /** The index can be read back from an id, whatever the clock said: ids
      of different positions never collide. */
  lemma IdeaIdInjective(now1: nat, index1: nat, now2: nat, index2: nat)
    requires IdeaId(now1, index1) == IdeaId(now2, index2)
    ensures index1 == index2 && now1 == now2
  {
    var a, c := NatToString(now1), NatToString(now2);
    var id := IdeaId(now1, index1);
    DashFollowsDigits(a, NatToString(index1));
    DashFollowsDigits(c, NatToString(index2));
    assert a == id[..|a|] == c;
    assert NatToString(index1) == id[|a| + 1..] == NatToString(index2);
    NatToStringInjective(now1, now2);
    NatToStringInjective(index1, index2);
  }

  /** In digits followed by `-`, the first `-` is right after the digits. */
  lemma DashFollowsDigits(digits: string, rest: string)
    requires forall i :: 0 <= i < |digits| ==> IsDigit(digits[i])
    ensures IndexOf(digits + "-" + rest, "-", 0) == Some(|digits|)
  {
    var s := digits + "-" + rest;
    assert OccursAt(s, "-", |digits|);
    forall j | 0 <= j < |digits| ensures !OccursAt(s, "-", j) {
      assert s[j..j + 1][0] == s[j] == digits[j];
    }
  }

  lemma IdeaIdsDiffer(now1: nat, index1: nat, now2: nat, index2: nat)
    requires index1 != index2
    ensures IdeaId(now1, index1) != IdeaId(now2, index2)
  {
    if IdeaId(now1, index1) == IdeaId(now2, index2) {
      IdeaIdInjective(now1, index1, now2, index2);
    }
  }

  const UntitledProject: string := "Untitled Project"
  const NoDescription: string := "No description provided"

  /** The `ideas.map` callback for element `index`, read at clock `now`;
      None when `idea` is `null` or `undefined` and reading its title throws. */
  function FormatIdea(idea: Json, index: nat, now: nat, difficulty: Json): (r: Option<FormattedIdea>)
    ensures r.None? <==> idea.JNull? || idea.JUndefined?
    ensures r.Some? ==> r.value.id == IdeaId(now, index) && r.value.difficulty == difficulty
    ensures r.Some? ==> Truthy(r.value.title) && Truthy(r.value.description)
    ensures r.Some? ==> r.value.tags.JArr?
    ensures r.Some? ==> r.value.codeSnippet.JNull? || Truthy(r.value.codeSnippet)
  {
    match Get(idea, "title")
    case None => None
    case Some(title) =>
      var tags := OptGet(idea, "tags");
      Some(FormattedIdea(
        IdeaId(now, index),
        Or(title, JStr(UntitledProject)),
        Or(OptGet(idea, "description"), JStr(NoDescription)),
        difficulty,
        if tags.JArr? then tags else JArr([]),
        Or(OptGet(idea, "codeSnippet"), Or(OptGet(idea, "code_snippet"), JNull))))
  }

  /** What the normalisation keeps: a truthy title, description or snippet
      and an array of tags pass through unchanged; the snippet falls back to
      `code_snippet`; anything else becomes the default. */
  lemma FormatIdeaKeepsGivenFields(fields: map<string, Json>, index: nat, now: nat, difficulty: Json)
    ensures var r := FormatIdea(JObj(fields), index, now, difficulty).value;
            var field := (k: string) => if k in fields then fields[k] else JUndefined;
            && r.title == (if Truthy(field("title")) then field("title") else JStr(UntitledProject))
            && r.description == (if Truthy(field("description")) then field("description") else JStr(NoDescription))
            && r.tags == (if field("tags").JArr? then field("tags") else JArr([]))
            && r.codeSnippet == (if Truthy(field("codeSnippet")) then field("codeSnippet")
                                 else if Truthy(field("code_snippet")) then field("code_snippet")
                                 else JNull)
  {
  }

  /** `ideas.map(...)` from position `from` on; None as soon as one element
      throws. `clock(i)` is the `Date.now()` read for element `i`. */
  function FormatIdeasFrom(ideas: seq<Json>, from: nat, clock: nat -> nat, difficulty: Json)
    : (r: Option<seq<FormattedIdea>>)
    requires from <= |ideas|
    ensures r.Some? <==> forall i :: from <= i < |ideas| ==> !(ideas[i].JNull? || ideas[i].JUndefined?)
    ensures r.Some? ==>
              && |r.value| == |ideas| - from
              && forall i :: from <= i < |ideas| ==>
                   Some(r.value[i - from]) == FormatIdea(ideas[i], i, clock(i), difficulty)
    decreases |ideas| - from
  {
    if from == |ideas| then Some([])
    else
      match FormatIdea(ideas[from], from, clock(from), difficulty)
      case None => None
      case Some(x) =>
        match FormatIdeasFrom(ideas, from + 1, clock, difficulty)
        case None => None
        case Some(rest) => Some([x] + rest)
  }

  /** `formattedIdeas`. */
  function FormatIdeas(ideas: seq<Json>, clock: nat -> nat, difficulty: Json): (r: Option<seq<FormattedIdea>>)
    ensures r.Some? <==> forall i :: 0 <= i < |ideas| ==> !(ideas[i].JNull? || ideas[i].JUndefined?)
    ensures r.Some? ==>
              && |r.value| == |ideas|
              && forall i :: 0 <= i < |ideas| ==> Some(r.value[i]) == FormatIdea(ideas[i], i, clock(i), difficulty)
  {
    FormatIdeasFrom(ideas, 0, clock, difficulty)
  }

  /** Every formatted list has one idea per element, in order, each stamped
      with the requested difficulty, and no two ideas share an id. */
  lemma FormattedIdeasWellFormed(ideas: seq<Json>, clock: nat -> nat, difficulty: Json)
    requires FormatIdeas(ideas, clock, difficulty).Some?
    ensures var r := FormatIdeas(ideas, clock, difficulty).value;
            && |r| == |ideas|
            && (forall i :: 0 <= i < |r| ==> r[i].difficulty == difficulty && r[i].id == IdeaId(clock(i), i))
            && forall i, j :: 0 <= i < j < |r| ==> r[i].id != r[j].id
  {
    var r := FormatIdeas(ideas, clock, difficulty).value;
    forall i | 0 <= i < |r| ensures r[i].id == IdeaId(clock(i), i) && r[i].difficulty == difficulty {
      FormattedAt(ideas, clock, difficulty, i);
    }
    forall i, j | 0 <= i < j < |r| ensures r[i].id != r[j].id {
      FormattedAt(ideas, clock, difficulty, i);
      FormattedAt(ideas, clock, difficulty, j);
      IdeaIdsDiffer(clock(i), i, clock(j), j);
    }
  }

  lemma FormattedAt(ideas: seq<Json>, clock: nat -> nat, difficulty: Json, i: nat)
    requires FormatIdeas(ideas, clock, difficulty).Some? && i < |ideas|
    ensures var x := FormatIdeas(ideas, clock, difficulty).value[i];
            x.id == IdeaId(clock(i), i) && x.difficulty == difficulty
            && Truthy(x.title) && Truthy(x.description) && x.tags.JArr?
  {
    var r := FormatIdeas(ideas, clock, difficulty).value;
    assert Some(r[i]) == FormatIdea(ideas[i], i, clock(i), difficulty);
  }


  // ---------------------------------------------------------------------
  // The request handler

  /** An incoming request; `body` is None when `req.json()` throws. */
  datatype Request = Request(httpMethod: string, body: Option<Json>)

  /** What `fetch` to the AI gateway gives: a network failure, or a reply
      with its status and its body, None when `response.json()` throws. */
  datatype GatewayReply = NetworkFailure | Reply(status: int, body: Option<Json>)

  /** The `error` text of a failed response: one the function throws itself,
      or a TypeError/SyntaxError raised by the runtime, whose wording is not
      modelled. */
  datatype ErrorText = Text(text: string) | RuntimeError

  datatype Response =
    | Preflight
    | Failure(status: int, error: ErrorText)
    | Ideas(ideas: seq<FormattedIdea>)

  /** The HTTP status of a response; success and preflight use the default
      200. */
  function StatusOf(r: Response): int
  {
    match r
    case Preflight => 200
    case Failure(status, _) => status
    case Ideas(_) => 200
  }

  const MissingKey: string := "LOVABLE_API_KEY is not configured"
  const RateLimited: string := "Rate limit exceeded. Please try again in a moment."
  const CreditsDepleted: string := "AI credits depleted. Please add funds to continue."
  const GenerationFailed: string := "Failed to generate project ideas"
  const NoContent: string := "No content in AI response"
  const InvalidFormat: string := "Invalid response format from AI"

  /** `response.ok`. */
  predicate IsOk(status: int)
  {
    200 <= status <= 299
  }

  /** The request gets as far as calling the gateway: it is not a preflight,
      its body parses to a value that can be destructured, the API key is
      set, `skills` is an array (so `skills.join` exists), and `count`, the
      skills and `difficulty` convert to text in the user prompt. */
  predicate ReachesGateway(req: Request, apiKey: Option<string>)
  {
    && req.httpMethod != "OPTIONS"
    && req.body.Some? && !(req.body.value.JNull? || req.body.value.JUndefined?)
    && apiKey.Some? && apiKey.value != ""
    && OptGet(req.body.value, "skills").JArr?
    && PromptConverts(req.body.value)
  }

  /** The values the user prompt interpolates, `${count}`,
      `${skills.join(", ")}` and `${difficulty}`, convert to text. */
  predicate PromptConverts(body: Json)
  {
    && ConvertsToPrimitive(OptGet(body, "count"))
    && ConvertsToPrimitive(OptGet(body, "skills"))
    && ConvertsToPrimitive(OptGet(body, "difficulty"))
  }

  /** `aiResponse.choices?.[0]?.message?.content`; None when `aiResponse`
      is `null` and reading `choices` throws. */
  function ReplyContent(aiResponse: Json): Option<Json>
  {
    match Get(aiResponse, "choices")
    case None => None
    case Some(choices) => Some(OptGet(OptGet(OptFirst(choices), "message"), "content"))
  }

  /** The part of the handler inside the parse `try`: from the reply text to
      the ideas value (`parsed.ideas || parsed`); every failure here becomes
      "Invalid response format from AI". */
  function ParseIdeas(content: Json, parse: string -> Option<Json>): (r: Option<Json>)
    ensures !content.JStr? ==> r.None?
    ensures content.JStr? ==>
              var parsed := parse(ExtractJsonText(content.s));
              && (parsed.None? || parsed.value.JNull? || parsed.value.JUndefined? ==> r.None?)
              && (parsed.Some? && parsed.value.JArr? ==> r == parsed)
              && (parsed.Some? && parsed.value.JObj? ==>
                    r == Some(if "ideas" in parsed.value.fields && Truthy(parsed.value.fields["ideas"])
                              then parsed.value.fields["ideas"] else parsed.value))
  {
    if !content.JStr? then None
    else
      match parse(ExtractJsonText(content.s))
      case None => None
      case Some(parsed) =>
        match Get(parsed, "ideas")
        case None => None
        case Some(ideas) => Some(Or(ideas, parsed))
  }

  /** The whole handler. `apiKey` is `Deno.env.get("LOVABLE_API_KEY")`,
      `gateway` what the gateway answers, `parse` is `JSON.parse`, and
      `clock(i)` the `Date.now()` read while formatting idea `i`. */
  function Handle(req: Request, apiKey: Option<string>, gateway: GatewayReply,
                  parse: string -> Option<Json>, clock: nat -> nat): (r: Response)
    ensures r.Preflight? <==> req.httpMethod == "OPTIONS"
    ensures r.Failure? ==> r.status == 429 || r.status == 402 || r.status == 500
    ensures r.Failure? && r.status != 500 ==> ReachesGateway(req, apiKey) && gateway.Reply? && gateway.status == r.status
    ensures r.Ideas? ==> ReachesGateway(req, apiKey) && gateway.Reply? && IsOk(gateway.status)
    ensures r.Ideas? ==> forall i :: 0 <= i < |r.ideas| ==> r.ideas[i].difficulty == OptGet(req.body.value, "difficulty")
  {
    if req.httpMethod == "OPTIONS" then Preflight
    else if req.body.None? then Failure(500, RuntimeError)
    else
      var body := req.body.value;
      match Get(body, "skills")
      case None => Failure(500, RuntimeError)
      case Some(skills) =>
        var difficulty := OptGet(body, "difficulty");
        if apiKey.None? || apiKey.value == "" then Failure(500, Text(MissingKey))
        else if !skills.JArr? || !PromptConverts(body) then Failure(500, RuntimeError)
        else
          match gateway
          case NetworkFailure => Failure(500, RuntimeError)
          case Reply(status, replyBody) =>
            if !IsOk(status) then
              if status == 429 then Failure(429, Text(RateLimited))
              else if status == 402 then Failure(402, Text(CreditsDepleted))
              else Failure(500, Text(GenerationFailed))
            else if replyBody.None? then Failure(500, RuntimeError)
            else
              match ReplyContent(replyBody.value)
              case None => Failure(500, RuntimeError)
              case Some(content) =>
                if !Truthy(content) then Failure(500, Text(NoContent))
                else IdeasFromContent(content, parse, clock, difficulty)
  }

  /** The tail of the handler once the reply has non-empty content: parse
      it, then format the ideas. A reply that does not parse is "Invalid
      response format from AI"; one whose ideas are not an array, or hold
      `null`, throws. */
  function IdeasFromContent(content: Json, parse: string -> Option<Json>, clock: nat -> nat, difficulty: Json): (r: Response)
    ensures r.Failure? ==> r.status == 500
    ensures r.Preflight? == false
    ensures r.Ideas? ==> forall i :: 0 <= i < |r.ideas| ==> r.ideas[i].difficulty == difficulty
  {
    match ParseIdeas(content, parse)
    case None => Failure(500, Text(InvalidFormat))
    case Some(ideas) =>
      if !ideas.JArr? then Failure(500, RuntimeError)
      else
        match FormatIdeas(ideas.items, clock, difficulty)
        case None => Failure(500, RuntimeError)
        case Some(formatted) =>
          FormattedIdeasWellFormed(ideas.items, clock, difficulty);
          Ideas(formatted)
  }

  /** A request whose `count`, skills or difficulty cannot be turned into
      text fails with a 500 before the gateway is called, whatever it would
      have answered; an object with its own `toString` field is such a
      value. */
  lemma UnconvertiblePromptFails(req: Request, apiKey: Option<string>, gateway: GatewayReply,
                                 parse: string -> Option<Json>, clock: nat -> nat)
    requires req.httpMethod != "OPTIONS" && req.body.Some? && !(req.body.value.JNull? || req.body.value.JUndefined?)
    requires apiKey.Some? && apiKey.value != ""
    requires !PromptConverts(req.body.value)
    ensures Handle(req, apiKey, gateway, parse, clock) == Failure(500, RuntimeError)
    ensures !ConvertsToPrimitive(JObj(map["toString" := JNum(1)]))
  {
  }

  /** The gateway's refusals map to the function's own: 429 and 402 keep
      their status with a message for the user, and every other non-ok
      status becomes a 500 "Failed to generate project ideas". */
  lemma GatewayErrorsMapped(req: Request, apiKey: Option<string>, status: int, replyBody: Option<Json>,
                            parse: string -> Option<Json>, clock: nat -> nat)
    requires ReachesGateway(req, apiKey) && !IsOk(status)
    ensures var r := Handle(req, apiKey, Reply(status, replyBody), parse, clock);
            && (status == 429 ==> r == Failure(429, Text(RateLimited)))
            && (status == 402 ==> r == Failure(402, Text(CreditsDepleted)))
            && (status != 429 && status != 402 ==> r == Failure(500, Text(GenerationFailed)))
  {
  }

  /** A missing or empty API key is reported before the gateway is called,
      whatever the gateway would have said. */
  lemma MissingKeyReportedFirst(req: Request, gateway: GatewayReply, parse: string -> Option<Json>, clock: nat -> nat,
                                apiKey: Option<string>)
    requires req.httpMethod != "OPTIONS" && req.body.Some? && !(req.body.value.JNull? || req.body.value.JUndefined?)
    requires apiKey.None? || apiKey.value == ""
    ensures Handle(req, apiKey, gateway, parse, clock) == Failure(500, Text(MissingKey))
  {
  }

  /** A successful response holds one idea per element of the model's
      array, in order, each with the requested difficulty, a truthy title
      and description, an array of tags, and an id that no other idea in
      the response shares. */
  lemma SuccessfulResponse(req: Request, apiKey: Option<string>, gateway: GatewayReply,
                           parse: string -> Option<Json>, clock: nat -> nat)
    requires Handle(req, apiKey, gateway, parse, clock).Ideas?
    ensures var r := Handle(req, apiKey, gateway, parse, clock).ideas;
            var content := ReplyContent(gateway.body.value).value;
            var ideas := ParseIdeas(content, parse).value;
            && ideas.JArr? && |r| == |ideas.items|
            && (forall i :: 0 <= i < |r| ==> r[i].id == IdeaId(clock(i), i) && Truthy(r[i].title)
                                             && Truthy(r[i].description) && r[i].tags.JArr?)
            && forall i, j :: 0 <= i < j < |r| ==> r[i].id != r[j].id
  {
    var content := ReplyContent(gateway.body.value).value;
    var ideas := ParseIdeas(content, parse).value;
    var difficulty := OptGet(req.body.value, "difficulty");
    var r := FormatIdeas(ideas.items, clock, difficulty).value;
    FormattedIdeasWellFormed(ideas.items, clock, difficulty);
    forall i | 0 <= i < |r| ensures Truthy(r[i].title) && Truthy(r[i].description) && r[i].tags.JArr? {
      assert Some(r[i]) == FormatIdea(ideas.items[i], i, clock(i), difficulty);
    }
  }

  /** A reply whose text is a fenced `json` block around a well-formed
      ideas object succeeds with those ideas, normalised. */
  lemma FencedIdeasAccepted(req: Request, apiKey: Option<string>, pre: string, body: string, post: string,
                            items: seq<Json>, parse: string -> Option<Json>, clock: nat -> nat)
    requires ReachesGateway(req, apiKey)
    requires forall i :: 0 <= i < |pre| ==> !FenceAt(pre + Fence, i)
    requires forall i :: 0 <= i < |body| ==> !FenceAt(body + Fence, i)
    requires parse(Trim(body)) == Some(JObj(map["ideas" := JArr(items)]))
    requires forall i :: 0 <= i < |items| ==> items[i].JObj?
    ensures var text := pre + Fence + "json" + body + Fence + post;
            var aiResponse := JObj(map["choices" := JArr([JObj(map["message" := JObj(map["content" := JStr(text)])])])]);
            var r := Handle(req, apiKey, Reply(200, Some(aiResponse)), parse, clock);
            r.Ideas? && |r.ideas| == |items|
            && forall i :: 0 <= i < |items| ==>
                 Some(r.ideas[i]) == FormatIdea(items[i], i, clock(i), OptGet(req.body.value, "difficulty"))
  {
    var text := pre + Fence + "json" + body + Fence + post;
    var aiResponse := JObj(map["choices" := JArr([JObj(map["message" := JObj(map["content" := JStr(text)])])])]);
    var difficulty := OptGet(req.body.value, "difficulty");
    FencedReplyYieldsBody(pre, "json", body, post);
    assert ReplyContent(aiResponse) == Some(JStr(text));
    assert ParseIdeas(JStr(text), parse) == Some(JArr(items));
    assert FormatIdeas(items, clock, difficulty).Some?;
    OkReplyYieldsIdeas(req, apiKey, 200, aiResponse, JStr(text), items, parse, clock);
  }

  /** Past the checks, an ok reply whose content parses to an array of
      objects yields exactly those objects, formatted. */
  lemma OkReplyYieldsIdeas(req: Request, apiKey: Option<string>, status: int, aiResponse: Json, content: Json,
                           items: seq<Json>, parse: string -> Option<Json>, clock: nat -> nat)
    requires ReachesGateway(req, apiKey) && IsOk(status)
    requires ReplyContent(aiResponse) == Some(content) && Truthy(content)
    requires ParseIdeas(content, parse) == Some(JArr(items))
    requires FormatIdeas(items, clock, OptGet(req.body.value, "difficulty")).Some?
    ensures Handle(req, apiKey, Reply(status, Some(aiResponse)), parse, clock)
            == Ideas(FormatIdeas(items, clock, OptGet(req.body.value, "difficulty")).value)
  {
    var body := req.body.value;
    var difficulty := OptGet(body, "difficulty");
    assert Get(body, "skills") == Some(OptGet(body, "skills"));
    assert Handle(req, apiKey, Reply(status, Some(aiResponse)), parse, clock)
           == IdeasFromContent(content, parse, clock, difficulty);
  }
}
