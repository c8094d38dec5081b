/** Prompt-prefix fingerprints (`src/routing/prefix_fingerprint.rs`) and token estimates
    (`src/telemetry/token_estimator.rs`), up to the canonical value that is encoded and hashed. */
module Fingerprint {
  import opened Base
  import opened Sse

  // ---------------------------------------------------------------- words

  /** Length of the leading run of characters that are not whitespace. */
  function Run(s: string): (k: nat)
    ensures k <= |s|
    ensures k < |s| ==> IsWhitespace(s[k])
    ensures s != "" && !IsWhitespace(s[0]) ==> k > 0
  {
    if s == "" || IsWhitespace(s[0]) then 0 else 1 + Run(s[1..])
  }

  /** `split_whitespace` */
  function Words(s: string): seq<string>
    decreases |s|
  {
    if s == "" then []
    else if IsWhitespace(s[0]) then Words(s[1..])
    else [s[..Run(s)]] + Words(s[Run(s)..])
  }

  function AllWords(parts: seq<string>): seq<string> {
    if parts == [] then [] else Words(parts[0]) + AllWords(parts[1..])
  }

  function Normalize(text: string): string {
    Join(Words(text), ' ')
  }

  lemma {:induction false} RunStops(a: string, b: string)
    requires b == "" || IsWhitespace(b[0])
    ensures Run(a + b) == Run(a)
  {
    if a == "" {
      assert a + b == b;
    } else if !IsWhitespace(a[0]) {
      assert (a + b)[1..] == a[1..] + b;
      RunStops(a[1..], b);
    }
  }

  /** A whitespace character separates the words on its two sides. */
  lemma {:induction false} WordsSplit(a: string, sep: char, b: string)
    requires IsWhitespace(sep)
    ensures Words(a + [sep] + b) == Words(a) + Words(b)
    decreases |a|
  {
    var s := a + [sep] + b;
    if a == "" {
      assert s[1..] == b;
    } else if IsWhitespace(a[0]) {
      assert s[1..] == a[1..] + [sep] + b;
      WordsSplit(a[1..], sep, b);
    } else {
      var k := Run(a);
      assert s == a + ([sep] + b);
      RunStops(a, [sep] + b);
      assert s[..k] == a[..k] && s[k..] == a[k..] + [sep] + b;
      WordsSplit(a[k..], sep, b);
      assert [a[..k]] + (Words(a[k..]) + Words(b)) == ([a[..k]] + Words(a[k..])) + Words(b);
    }
  }

  lemma {:induction false} WordsOfJoin(parts: seq<string>, sep: char)
    requires IsWhitespace(sep)
    ensures Words(Join(parts, sep)) == AllWords(parts)
  {
    if |parts| == 1 {
      assert AllWords(parts[1..]) == [];
    } else if |parts| > 1 {
      WordsOfJoin(parts[1..], sep);
      WordsSplit(parts[0], sep, Join(parts[1..], sep));
    }
  }

  predicate IsWord(w: string) {
    w != "" && Run(w) == |w|
  }

  lemma {:induction false} RunPrefix(s: string)
    ensures Run(s[..Run(s)]) == Run(s)
  {
    if s != "" && !IsWhitespace(s[0]) {
      assert s[..Run(s)][1..] == s[1..][..Run(s[1..])];
      RunPrefix(s[1..]);
    }
  }

  lemma {:induction false} WordsAreWords(s: string)
    ensures forall i :: 0 <= i < |Words(s)| ==> IsWord(Words(s)[i])
    decreases |s|
  {
    if s != "" {
      if IsWhitespace(s[0]) {
        WordsAreWords(s[1..]);
      } else {
        RunPrefix(s);
        WordsAreWords(s[Run(s)..]);
      }
    }
  }

  lemma {:induction false} WordsOfWords(ws: seq<string>)
    requires forall i :: 0 <= i < |ws| ==> IsWord(ws[i])
    ensures AllWords(ws) == ws
  {
    if ws != [] {
      var w := ws[0];
      assert IsWord(w) && w[..|w|] == w && w[|w|..] == "";
      assert Words(w) == [w];
      WordsOfWords(ws[1..]);
    }
  }

  /** Normalising keeps the words, and so the token estimate; and a normal form is its own. */
  lemma NormalizeKeepsWords(text: string)
    ensures Words(Normalize(text)) == Words(text) && Normalize(Normalize(text)) == Normalize(text)
  {
    WordsAreWords(text);
    WordsOfWords(Words(text));
    WordsOfJoin(Words(text), ' ');
  }

  /** Texts have the same normal form exactly when they have the same words. */
  lemma NormalFormIff(a: string, b: string)
    ensures Normalize(a) == Normalize(b) <==> Words(a) == Words(b)
  {
    NormalizeKeepsWords(a);
    NormalizeKeepsWords(b);
  }

  lemma EmptyIffNoWords(text: string)
    ensures Normalize(text) == "" <==> Words(text) == []
  {
    NormalizeKeepsWords(text);
  }

  // ---------------------------------------------------------------- requests

  datatype Role = System | Developer | User | Assistant | Tool

  /** `calls` and `callId` stand for a message's tool calls and the call it answers. */
  datatype Message = Message(role: Role, content: string, calls: string, callId: Option<string>)

  /** What else a fingerprint covers, as encoded values. */
  datatype Extras = Extras(tools: Option<seq<string>>, toolChoice: Option<string>, parallel: Option<bool>,
                           format: Option<string>)

  datatype Request = Request(model: Option<string>, messages: seq<Message>, extras: Extras)

  /** The value that is encoded as JSON and hashed. */
  datatype Canonical = Canonical(model: string, messages: seq<Message>, extras: Extras)

  datatype Prefix = Prefix(canonical: Option<Canonical>, tokens: nat)

  /** Everything before the last user message. */
  function StablePrefix(ms: seq<Message>): seq<Message> {
    match LastUser(ms)
    case None => ms
    case Some(i) => ms[..i]
  }

  function LastUser(ms: seq<Message>): (r: Option<nat>)
    ensures r.Some? ==> r.value < |ms|
  {
    if ms == [] then None
    else if ms[|ms| - 1].role == User then Some(|ms| - 1)
    else LastUser(ms[..|ms| - 1])
  }

  /** Messages with their whitespace normalised; those without words are left out. */
  function Normalized(ms: seq<Message>): seq<Message> {
    if ms == [] then []
    else
      var content := Normalize(ms[0].content);
      (if content == "" then [] else [ms[0].(content := content)]) + Normalized(ms[1..])
  }

  function Contents(ms: seq<Message>): seq<string> {
    if ms == [] then [] else [ms[0].content] + Contents(ms[1..])
  }

  predicate HighValue(ms: seq<Message>, x: Extras) {
    || (exists i :: 0 <= i < |ms| && (ms[i].role == System || ms[i].role == Developer || ms[i].role == Tool))
    || (x.tools.Some? && x.tools.value != []) || x.toolChoice.Some? || x.format.Some?
  }

  function EstimateText(text: string): nat {
    |Words(text)|
  }

  function EstimateMessages(ms: seq<Message>): nat {
    if ms == [] then 0 else EstimateText(ms[0].content) + EstimateMessages(ms[1..])
  }

  /** `fingerprint_request` */
  function FingerprintRequest(r: Request): Prefix {
    var ms := Normalized(StablePrefix(r.messages));
    Prefix(if HighValue(ms, r.extras) then Some(Canonical(r.model.UnwrapOr(""), ms, r.extras)) else None,
           EstimateText(Join(Contents(ms), '\n')))
  }

  lemma {:induction false} LastUserAt(before: seq<Message>, user: Message, after: seq<Message>)
    requires user.role == User && forall i :: 0 <= i < |after| ==> after[i].role != User
    ensures LastUser(before + [user] + after) == Some(|before|)
    decreases after
  {
    var ms := before + [user] + after;
    if after == [] {
      assert ms == before + [user];
    } else {
      var n := |after| - 1;
      assert ms[|ms| - 1] == after[n];
      assert ms[..|ms| - 1] == before + [user] + after[..n];
      LastUserAt(before, user, after[..n]);
    }
  }

  /** Nothing in the last user message or after it matters. */
  lemma LastUserMessageIgnored(r: Request, before: seq<Message>, u: Message, after: seq<Message>, v: Message,
                               later: seq<Message>)
    requires u.role == User && v.role == User
    requires forall i :: 0 <= i < |after| ==> after[i].role != User
    requires forall i :: 0 <= i < |later| ==> later[i].role != User
    ensures FingerprintRequest(r.(messages := before + [u] + after))
        == FingerprintRequest(r.(messages := before + [v] + later))
    ensures FingerprintRequest(r.(messages := before + [u] + after)).tokens == EstimateMessages(before)
  {
    LastUserAt(before, u, after);
    LastUserAt(before, v, later);
    assert (before + [u] + after)[..|before|] == before && (before + [v] + later)[..|before|] == before;
    PrefixTokens(before);
  }

  /** The words of the messages, message by message. */
  function MessageWords(ms: seq<Message>): seq<string> {
    if ms == [] then [] else Words(ms[0].content) + MessageWords(ms[1..])
  }

  lemma {:induction false} NormalizedWords(ms: seq<Message>)
    ensures AllWords(Contents(Normalized(ms))) == MessageWords(ms)
  {
    if ms != [] {
      NormalizedWords(ms[1..]);
      EmptyIffNoWords(ms[0].content);
      NormalizeKeepsWords(ms[0].content);
      if Normalize(ms[0].content) != "" {
        assert Normalized(ms)[1..] == Normalized(ms[1..]);
        assert Contents(Normalized(ms))[1..] == Contents(Normalized(ms[1..]));
      } else {
        assert [] + Normalized(ms[1..]) == Normalized(ms[1..]);
        assert [] + MessageWords(ms[1..]) == MessageWords(ms[1..]);
      }
    }
  }

  lemma {:induction false} MessageWordCount(ms: seq<Message>)
    ensures |MessageWords(ms)| == EstimateMessages(ms)
  {
    if ms != [] { MessageWordCount(ms[1..]); }
  }

  /** The estimate for the normalised prefix is the sum over its messages as they came. */
  lemma PrefixTokens(ms: seq<Message>)
    ensures EstimateText(Join(Contents(Normalized(ms)), '\n')) == EstimateMessages(ms)
  {
    WordsOfJoin(Contents(Normalized(ms)), '\n');
    NormalizedWords(ms);
    MessageWordCount(ms);
  }

  predicate SameButSpaces(a: Message, b: Message) {
    a.(content := "") == b.(content := "") && Words(a.content) == Words(b.content)
  }

  lemma {:induction false} NormalizedSame(a: seq<Message>, b: seq<Message>)
    requires |a| == |b| && forall i :: 0 <= i < |a| ==> SameButSpaces(a[i], b[i])
    ensures Normalized(a) == Normalized(b)
  {
    if a != [] {
      assert SameButSpaces(a[0], b[0]);
      NormalFormIff(a[0].content, b[0].content);
      forall i | 0 <= i < |a[1..]|
          ensures SameButSpaces(a[1..][i], b[1..][i]) { assert SameButSpaces(a[i + 1], b[i + 1]); }
      NormalizedSame(a[1..], b[1..]);
    }
  }

  lemma {:induction false} LastUserSame(a: seq<Message>, b: seq<Message>)
    requires |a| == |b| && forall i :: 0 <= i < |a| ==> SameButSpaces(a[i], b[i])
    ensures LastUser(a) == LastUser(b)
    decreases |a|
  {
    if a != [] {
      var n := |a| - 1;
      assert SameButSpaces(a[n], b[n]) && a[n].role == a[n].(content := "").role == b[n].role;
      LastUserSame(a[..n], b[..n]);
    }
  }

  /** Requests that differ only in whitespace get the same fingerprint and estimate. */
  lemma SpacesIgnored(r: Request, a: seq<Message>, b: seq<Message>)
    requires |a| == |b| && forall i :: 0 <= i < |a| ==> SameButSpaces(a[i], b[i])
    ensures FingerprintRequest(r.(messages := a)) == FingerprintRequest(r.(messages := b))
  {
    LastUserSame(a, b);
    NormalizedSame(StablePrefix(a), StablePrefix(b));
  }

  /** The messages that have any words. */
  function NonBlank(ms: seq<Message>): seq<Message> {
    if ms == [] then []
    else (if Words(ms[0].content) == [] then [] else [ms[0]]) + NonBlank(ms[1..])
  }

  lemma {:induction false} NormalizedNonBlank(ms: seq<Message>)
    ensures |Normalized(ms)| == |NonBlank(ms)|
    ensures forall i :: 0 <= i < |NonBlank(ms)| ==>
              Normalized(ms)[i] == NonBlank(ms)[i].(content := Normalize(NonBlank(ms)[i].content))
  {
    if ms != [] {
      EmptyIffNoWords(ms[0].content);
      NormalizedNonBlank(ms[1..]);
    }
  }

  /** Word for word the same messages. */
  ghost predicate SameMessages(a: seq<Message>, b: seq<Message>) {
    |a| == |b| && forall i :: 0 <= i < |a| ==> SameButSpaces(a[i], b[i])
  }

  lemma SameIffNormalized(m: Message, n: Message)
    ensures SameButSpaces(m, n) <==> m.(content := Normalize(m.content)) == n.(content := Normalize(n.content))
  {
    NormalFormIff(m.content, n.content);
  }

  lemma NormalizedIff(a: seq<Message>, b: seq<Message>)
    ensures Normalized(a) == Normalized(b) <==> SameMessages(NonBlank(a), NonBlank(b))
  {
    NormalizedNonBlank(a);
    NormalizedNonBlank(b);
    var x, y := NonBlank(a), NonBlank(b);
    if |x| == |y| {
      forall i | 0 <= i < |x| ensures Normalized(a)[i] == Normalized(b)[i] <==> SameButSpaces(x[i], y[i]) {
        SameIffNormalized(x[i], y[i]);
      }
      if SameMessages(x, y) {
        assert forall i :: 0 <= i < |x| ==> SameButSpaces(x[i], y[i]);
        assert Normalized(a) == Normalized(b);
      }
    }
  }

  /** Without a user message all messages are the prefix. */
  lemma {:induction false} NoUserKeepsAll(ms: seq<Message>)
    requires forall i :: 0 <= i < |ms| ==> ms[i].role != User
    ensures LastUser(ms) == None && StablePrefix(ms) == ms
  {
    if ms != [] { NoUserKeepsAll(ms[..|ms| - 1]); }
  }

  /** A request has a fingerprint exactly if a message with words before the last user message is a
      system, developer or tool message, or the request names tools, a tool choice or a format. */
  lemma FingerprintedIff(r: Request)
    ensures FingerprintRequest(r).canonical.Some? <==>
            || (exists m :: m in NonBlank(StablePrefix(r.messages)) && m.role in {System, Developer, Tool})
            || (r.extras.tools.Some? && |r.extras.tools.value| >= 1)
            || r.extras.toolChoice.Some? || r.extras.format.Some?
  {
    var ms := StablePrefix(r.messages);
    NormalizedNonBlank(ms);
    forall i | 0 <= i < |NonBlank(ms)| ensures Normalized(ms)[i].role == NonBlank(ms)[i].role {}
    if m :| m in NonBlank(ms) && m.role in {System, Developer, Tool} {
      var i :| 0 <= i < |NonBlank(ms)| && NonBlank(ms)[i] == m;
      assert Normalized(ms)[i].role == m.role;
    }
    if i :| 0 <= i < |Normalized(ms)| && Normalized(ms)[i].role in {System, Developer, Tool} {
      assert NonBlank(ms)[i] in NonBlank(ms);
    }
  }

  /** Two requests have the same canonical value exactly when they agree on the model, on the extras
      and, up to whitespace and blank messages, on every message before the last user message. */
  lemma CanonicalIff(r: Request, s: Request)
    requires FingerprintRequest(r).canonical.Some?
    ensures FingerprintRequest(r).canonical == FingerprintRequest(s).canonical <==>
            && r.model.UnwrapOr("") == s.model.UnwrapOr("") && r.extras == s.extras
            && SameMessages(NonBlank(StablePrefix(r.messages)), NonBlank(StablePrefix(s.messages)))
    ensures FingerprintRequest(r).canonical == FingerprintRequest(s).canonical ==>
              && MessageWords(StablePrefix(r.messages)) == MessageWords(StablePrefix(s.messages))
              && FingerprintRequest(r).tokens == FingerprintRequest(s).tokens
  {
    NormalizedIff(StablePrefix(r.messages), StablePrefix(s.messages));
    NormalizedWords(StablePrefix(r.messages));
    NormalizedWords(StablePrefix(s.messages));
  }
}
