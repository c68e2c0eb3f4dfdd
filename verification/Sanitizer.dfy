/**
 Redaction of secrets in run records (mnemosyne/core/sanitize.go): one pass for each known value, then one for each
 credential shape, every pass over what the previous ones left. A character stands for a byte; nothing here depends on
 there being only 256 of them.
 */
module Sanitizer {
  import opened Options

  type Bytes = string

  const REDACTION: Bytes := "<redacted>"
  const INSIDE: Bytes := "redacted"

  // ---- Credential shapes: the few regular expression forms the source uses ----

  datatype Class = Class(lower: bool, upper: bool, digits: bool, others: string)

  predicate In(c: char, cls: Class) {
    || (cls.lower && 'a' <= c <= 'z') || (cls.upper && 'A' <= c <= 'Z') || (cls.digits && '0' <= c <= '9')
    || c in cls.others
  }

  /** A literal, or a greedy run of a class: at least `min` characters, at most `max` if there is one. */
  datatype Part = Literal(text: string) | Run(cls: Class, min: nat, max: Option<nat>)

  type Shape = seq<Part>

  function Alnum(others: string): Class {
    Class(true, true, true, others)
  }

  const GITHUB: Shape := [Literal("gh"), Run(Class(false, false, false, "pousr"), 1, Some(1)), Literal("_"),
      Run(Alnum("_"), 20, None)]
  const SLACK: Shape := [Literal("xox"), Run(Class(false, false, false, "abp"), 1, Some(1)), Literal("-"),
      Run(Alnum("-"), 1, None)]
  const DISCORD: Shape :=
    [Run(Alnum("_-"), 24, Some(24)), Literal("."), Run(Alnum("_-"), 6, Some(6)), Literal("."),
        Run(Alnum("_-"), 27, None)]
  const AWS: Shape := [Literal("AKIA"), Run(Class(false, true, true, ""), 16, Some(16))]
  const PRIVATE_KEY: Shape := [Literal("-----BEGIN "), Run(Class(false, true, false, " "), 0, None),
      Literal("PRIVATE KEY-----")]
  const BEARER: Shape := [Literal("Bearer"), Run(Class(false, false, false, "\t\n\U{0c}\r "), 1, None),
      Run(Alnum("-_.="), 16, None)]
  const ANTHROPIC: Shape := [Literal("sk-ant-"), Run(Alnum("_-"), 20, None)]
  const BLOB: Shape := [Run(Alnum("+/"), 40, None), Run(Class(false, false, false, "="), 0, Some(2))]

  const PATTERNS: seq<Shape> := [GITHUB, SLACK, DISCORD, AWS, PRIVATE_KEY, BEARER, ANTHROPIC, BLOB]

  /** How far a class reaches from the start. */
  function Reach(cls: Class, s: Bytes): (n: nat)
    ensures n <= |s| && forall i :: 0 <= i < n ==> In(s[i], cls)
    ensures n < |s| ==> !In(s[n], cls)
  {
    if s == "" || !In(s[0], cls) then 0 else 1 + Reach(cls, s[1..])
  }

  function Most(cls: Class, max: Option<nat>, s: Bytes): (n: nat)
    ensures n <= |s| && n <= Reach(cls, s)
  {
    if max.Some? && max.value < Reach(cls, s) then max.value else Reach(cls, s)
  }

  /**
   The length of the match at the start of `s`: the longest run first, giving characters back while the rest fails.
   */
  function Fit(shape: Shape, s: Bytes): (n: Option<nat>)
    ensures n.Some? ==> n.value <= |s|
    decreases |shape|, |s| + 1
  {
    if shape == [] then Some(0)
    else match shape[0]
         case Literal(text) =>
           if text <= s then Plus(|text|, Fit(shape[1..], s[|text|..])) else None
         case Run(cls, min, max) => FitRun(shape, s, Most(cls, max, s))
  }

  function FitRun(shape: Shape, s: Bytes, k: nat): (n: Option<nat>)
    requires shape != [] && shape[0].Run? && k <= |s|
    ensures n.Some? ==> n.value <= |s|
    decreases |shape|, k
  {
    if k < shape[0].min then None
    else
      var rest := Fit(shape[1..], s[k..]);
      if rest.Some? then Some(k + rest.value)
      else if k == 0 then None
      else FitRun(shape, s, k - 1)
  }

  function Plus(k: nat, n: Option<nat>): Option<nat> {
    if n.None? then None else Some(k + n.value)
  }

  /** A run of a class may take `k` characters from the start of `w`. */
  predicate Takes(part: Part, w: Bytes, k: nat)
    requires part.Run?
  {
    part.min <= k <= |w| && (part.max.Some? ==> k <= part.max.value) && forall i :: 0 <= i < k ==> In(w[i], part.cls)
  }

  /** The whole of `w` is of the shape; no greed here. */
  ghost predicate Matches(shape: Shape, w: Bytes)
    decreases |shape|
  {
    if shape == [] then w == ""
    else match shape[0]
         case Literal(text) => text <= w && Matches(shape[1..], w[|text|..])
         case Run(_, _, _) => exists k: nat :: Takes(shape[0], w, k) && Matches(shape[1..], w[k..])
  }

  lemma {:induction false} ReachAtLeast(cls: Class, s: Bytes, k: nat)
    requires k <= |s| && forall i :: 0 <= i < k ==> In(s[i], cls)
    ensures k <= Reach(cls, s)
    decreases k
  {
    if k > 0 {
      ReachAtLeast(cls, s[1..], k - 1);
    }
  }

  /** What the search finds is of the shape. */
  lemma {:induction false} FitMatches(shape: Shape, s: Bytes)
    requires Fit(shape, s).Some?
    ensures Matches(shape, s[..Fit(shape, s).value])
    decreases |shape|, |s| + 1
  {
    if shape != [] {
      match shape[0]
      case Literal(text) =>
        FitMatches(shape[1..], s[|text|..]);
        var n := Fit(shape[1..], s[|text|..]).value;
        assert s[..|text| + n][|text|..] == s[|text|..][..n];
        assert text <= s[..|text| + n];
      case Run(cls, _, max) => FitRunMatches(shape, s, Most(cls, max, s));
    }
  }

  lemma {:induction false} FitRunMatches(shape: Shape, s: Bytes, k: nat)
    requires shape != [] && shape[0].Run? && k <= Most(shape[0].cls, shape[0].max, s) && FitRun(shape, s, k).Some?
    ensures Matches(shape, s[..FitRun(shape, s, k).value])
    decreases |shape|, k
  {
    if Fit(shape[1..], s[k..]).Some? {
      FitMatches(shape[1..], s[k..]);
      var n := Fit(shape[1..], s[k..]).value;
      var w := s[..k + n];
      assert w[k..] == s[k..][..n];
      assert Takes(shape[0], w, k);
    } else {
      FitRunMatches(shape, s, k - 1);
    }
  }

  lemma {:induction false} FitRunFinds(shape: Shape, s: Bytes, top: nat, k: nat)
    requires shape != [] && shape[0].Run? && shape[0].min <= k <= top <= |s| && Fit(shape[1..], s[k..]).Some?
    ensures FitRun(shape, s, top).Some?
    decreases top
  {
    if top > k && Fit(shape[1..], s[top..]).None? {
      FitRunFinds(shape, s, top - 1, k);
    }
  }

  /** The search misses nothing: if some prefix is of the shape, it finds one. */
  lemma {:induction false} FitFinds(shape: Shape, s: Bytes, n: nat)
    requires n <= |s| && Matches(shape, s[..n])
    ensures Fit(shape, s).Some?
    decreases |shape|
  {
    if shape != [] {
      match shape[0]
      case Literal(text) =>
        assert text <= s by {
          assert s[..n][..|text|] == s[..|text|];
        }
        assert s[..n][|text|..] == s[|text|..][..n - |text|];
        FitFinds(shape[1..], s[|text|..], n - |text|);
      case Run(cls, min, max) =>
        var w := s[..n];
        var k: nat :| Takes(shape[0], w, k) && Matches(shape[1..], w[k..]);
        assert w[k..] == s[k..][..n - k];
        FitFinds(shape[1..], s[k..], n - k);
        assert forall i :: 0 <= i < k ==> s[i] == w[i];
        ReachAtLeast(cls, s, k);
        FitRunFinds(shape, s, Most(cls, max, s), k);
    }
  }

  // ---- What the search finds is the longest text of the shape ----

  /** What is found at the start of a text is at least as long as every prefix of the shape. */
  ghost predicate Longest(shape: Shape) {
    forall s: Bytes, m: nat :: m <= |s| && Matches(shape, s[..m]) ==> Reaches(shape, s, m)
  }

  predicate Reaches(shape: Shape, s: Bytes, m: nat) {
    Fit(shape, s).Some? && m <= Fit(shape, s).value
  }

  lemma FoundIsLongest(shape: Shape, s: Bytes, m: nat)
    requires Longest(shape) && m <= |s| && Matches(shape, s[..m])
    ensures Fit(shape, s).Some? && m <= Fit(shape, s).value
  {
    assert Reaches(shape, s, m);
  }

  /** So no longer prefix than the one found is of the shape. */
  lemma NoneLonger(shape: Shape, s: Bytes, m: nat)
    requires Longest(shape) && Fit(shape, s).Some? && Fit(shape, s).value < m <= |s|
    ensures !Matches(shape, s[..m])
  {
    assert !Reaches(shape, s, m);
  }

  lemma LongestNothing()
    ensures Longest([])
  {
  }

  /** After a literal. */
  lemma LongestLiteral(text: string, rest: Shape)
    requires Longest(rest)
    ensures Longest([Literal(text)] + rest)
  {
    var shape := [Literal(text)] + rest;
    assert shape[1..] == rest;
    forall s: Bytes, m: nat | m <= |s| && Matches(shape, s[..m]) ensures Reaches(shape, s, m) {
      assert text <= s[..m] && s[..m][|text|..] == s[|text|..][..m - |text|];
      FoundIsLongest(rest, s[|text|..], m - |text|);
      assert text <= s;
    }
  }

  /** What a search for a run and a rest finds: the longest run after which the rest is found. */
  lemma {:induction false} RunFound(shape: Shape, s: Bytes, top: nat, k: nat) returns (j: nat)
    requires shape != [] && shape[0].Run? && shape[0].min <= k <= top <= |s| && Fit(shape[1..], s[k..]).Some?
    ensures k <= j <= top && Fit(shape[1..], s[j..]).Some?
    ensures FitRun(shape, s, top) == Some(j + Fit(shape[1..], s[j..]).value)
    ensures Fit(shape[1..], s[top..]).Some? ==> j == top
    decreases top
  {
    hide Fit;
    if Fit(shape[1..], s[top..]).Some? {
      j := top;
    } else {
      j := RunFound(shape, s, top - 1, k);
    }
  }

  /** A text of such a shape splits after a run that can be taken, where the rest is found. */
  lemma RunSplits(shape: Shape, s: Bytes, m: nat) returns (k: nat)
    requires shape != [] && shape[0].Run? && m <= |s| && Matches(shape, s[..m])
    ensures k <= m && shape[0].min <= k <= Most(shape[0].cls, shape[0].max, s)
    ensures Matches(shape[1..], s[k..][..m - k]) && Fit(shape[1..], s[k..]).Some?
  {
    var w := s[..m];
    k :| Takes(shape[0], w, k) && Matches(shape[1..], w[k..]);
    assert w[k..] == s[k..][..m - k];
    assert forall i :: 0 <= i < k ==> s[i] == w[i];
    ReachAtLeast(shape[0].cls, s, k);
    FitFinds(shape[1..], s[k..], m - k);
  }

  /** Every text of the shape is of this length. */
  ghost predicate OfLength(shape: Shape, n: nat) {
    forall w :: Matches(shape, w) ==> |w| == n
  }

  /** No text of the shape begins with a character of the class. */
  ghost predicate Foreign(cls: Class, shape: Shape) {
    forall w :: w != "" && Matches(shape, w) ==> !In(w[0], cls)
  }

  /**
   When a run takes as much as the whole text can use: nothing follows, or something of one length; or the run leaves no
   choice of its own, or has no bound and cannot reach into what follows.
   */
  ghost predicate Settled(part: Part, rest: Shape)
    requires part.Run?
  {
    || (exists n :: OfLength(rest, n))
    || (part.max == Some(part.min) && Longest(rest))
    || (part.max == None && Foreign(part.cls, rest) && Longest(rest))
  }

  lemma FixedRest(shape: Shape, s: Bytes, m: nat, k: nat, j: nat, n: nat)
    requires shape != [] && k <= j <= |s| && k <= m <= |s| && OfLength(shape[1..], n)
    requires Matches(shape[1..], s[k..][..m - k]) && Fit(shape[1..], s[j..]).Some?
    ensures m <= j + Fit(shape[1..], s[j..]).value
  {
    FitMatches(shape[1..], s[j..]);
    assert |s[k..][..m - k]| == n && |s[j..][..Fit(shape[1..], s[j..]).value]| == n;
  }

  /** A run that stops short of its class, before something foreign to it, has nothing after it. */
  lemma ForeignRest(shape: Shape, s: Bytes, m: nat, k: nat)
    requires shape != [] && shape[0].Run? && Foreign(shape[0].cls, shape[1..])
    requires k < Reach(shape[0].cls, s) && k <= m <= |s| && Matches(shape[1..], s[k..][..m - k])
    ensures m == k && Fit(shape[1..], s[Reach(shape[0].cls, s)..]).Some?
  {
    var top := Reach(shape[0].cls, s);
    var w := s[k..][..m - k];
    assert In(s[k], shape[0].cls);
    assert s[k..][0] == s[k];
    assert s[top..][..0] == w;
    FitFinds(shape[1..], s[top..], 0);
  }

  lemma SettledFinds(shape: Shape, s: Bytes, m: nat)
    requires shape != [] && shape[0].Run? && Settled(shape[0], shape[1..]) && m <= |s| && Matches(shape, s[..m])
    ensures Fit(shape, s).Some? && m <= Fit(shape, s).value
  {
    hide Matches, OfLength, Foreign, Longest, FitRun;
    var part, rest := shape[0], shape[1..];
    var top := Most(part.cls, part.max, s);
    var k := RunSplits(shape, s, m);
    var j := RunFound(shape, s, top, k);
    if n :| OfLength(rest, n) {
      FixedRest(shape, s, m, k, j, n);
    } else if k < top {
      ForeignRest(shape, s, m, k);
    } else {
      FoundIsLongest(rest, s[k..], m - k);
    }
  }

  /** A settled run before a rest. */
  lemma LongestRun(part: Part, rest: Shape)
    requires part.Run? && Settled(part, rest)
    ensures Longest([part] + rest)
  {
    var shape := [part] + rest;
    assert shape[1..] == rest;
    forall s: Bytes, m: nat | m <= |s| && Matches(shape, s[..m]) ensures Reaches(shape, s, m) {
      SettledFinds(shape, s, m);
    }
  }

  lemma NothingIsEmpty()
    ensures OfLength([], 0) && Longest([])
  {
  }

  lemma LiteralHasLength(text: string)
    ensures OfLength([Literal(text)], |text|)
  {
    assert [Literal(text)][1..] == [];
  }

  /** A last run of a class foreign to the run before it. */
  lemma ForeignRun(cls: Class, part: Part)
    requires part.Run? && forall c :: In(c, cls) ==> !In(c, part.cls)
    ensures Foreign(cls, [part])
  {
    assert [part][1..] == [];
    forall w | w != "" && Matches([part], w) ensures !In(w[0], cls) {
      var k: nat :| Takes(part, w, k) && Matches([], w[k..]);
      assert In(w[0], part.cls);
    }
  }

  /** The last part of a shape, a run. */
  lemma LongestLast(part: Part)
    requires part.Run?
    ensures Longest([part])
  {
    NothingIsEmpty();
    LongestRun(part, []);
    assert [part] + [] == [part];
  }

  lemma LongestGithubSlack()
    ensures Longest(GITHUB) && Longest(SLACK)
  {
    hide Longest, OfLength, Foreign;
    LongestLast(GITHUB[3]);
    LongestLiteral("_", GITHUB[3..]);
    LongestRun(GITHUB[1], [Literal("_")] + GITHUB[3..]);
    LongestLiteral("gh", [GITHUB[1]] + ([Literal("_")] + GITHUB[3..]));
    assert GITHUB == [Literal("gh")] + ([GITHUB[1]] + ([Literal("_")] + GITHUB[3..]));
    LongestLast(SLACK[3]);
    LongestLiteral("-", SLACK[3..]);
    LongestRun(SLACK[1], [Literal("-")] + SLACK[3..]);
    LongestLiteral("xox", [SLACK[1]] + ([Literal("-")] + SLACK[3..]));
    assert SLACK == [Literal("xox")] + ([SLACK[1]] + ([Literal("-")] + SLACK[3..]));
  }

  lemma LongestDiscord()
    ensures Longest(DISCORD)
  {
    hide Longest, OfLength, Foreign;
    LongestLast(DISCORD[4]);
    LongestLiteral(".", DISCORD[4..]);
    LongestRun(DISCORD[2], [Literal(".")] + DISCORD[4..]);
    LongestLiteral(".", [DISCORD[2]] + ([Literal(".")] + DISCORD[4..]));
    LongestRun(DISCORD[0], [Literal(".")] + ([DISCORD[2]] + ([Literal(".")] + DISCORD[4..])));
    assert DISCORD == [DISCORD[0]] + ([Literal(".")] + ([DISCORD[2]] + ([Literal(".")] + DISCORD[4..])));
  }

  lemma LongestAwsAnthropic()
    ensures Longest(AWS) && Longest(ANTHROPIC)
  {
    hide Longest;
    LongestLast(AWS[1]);
    LongestLiteral("AKIA", AWS[1..]);
    assert AWS == [Literal("AKIA")] + AWS[1..];
    LongestLast(ANTHROPIC[1]);
    LongestLiteral("sk-ant-", ANTHROPIC[1..]);
    assert ANTHROPIC == [Literal("sk-ant-")] + ANTHROPIC[1..];
  }

  lemma LongestPrivateKey()
    ensures Longest(PRIVATE_KEY)
  {
    hide Longest, OfLength;
    LiteralHasLength("PRIVATE KEY-----");
    LongestRun(PRIVATE_KEY[1], [Literal("PRIVATE KEY-----")]);
    LongestLiteral("-----BEGIN ", [PRIVATE_KEY[1]] + [Literal("PRIVATE KEY-----")]);
    assert PRIVATE_KEY == [Literal("-----BEGIN ")] + ([PRIVATE_KEY[1]] + [Literal("PRIVATE KEY-----")]);
  }

  lemma LongestBearerBlob()
    ensures Longest(BEARER) && Longest(BLOB)
  {
    hide Longest, Foreign;
    LongestLast(BEARER[2]);
    ForeignRun(BEARER[1].cls, BEARER[2]);
    LongestRun(BEARER[1], [BEARER[2]]);
    LongestLiteral("Bearer", [BEARER[1]] + [BEARER[2]]);
    assert BEARER == [Literal("Bearer")] + ([BEARER[1]] + [BEARER[2]]);
    LongestLast(BLOB[1]);
    ForeignRun(BLOB[0].cls, BLOB[1]);
    LongestRun(BLOB[0], [BLOB[1]]);
    assert BLOB == [BLOB[0]] + [BLOB[1]];
  }

  /** For each of the eight shapes the search takes the longest text of the shape. */
  lemma PatternsLongest(i: nat)
    requires i < |PATTERNS|
    ensures Longest(PATTERNS[i])
  {
    hide Longest;
    LongestGithubSlack();
    LongestDiscord();
    LongestAwsAnthropic();
    LongestPrivateKey();
    LongestBearerBlob();
    assert PATTERNS[i] in {GITHUB, SLACK, DISCORD, AWS, PRIVATE_KEY, BEARER, ANTHROPIC, BLOB};
  }

  // ---- Passes ----

  datatype Pass = Known(value: Bytes) | Credential(shape: Shape)

  /** The length of what a pass takes out at the start of `s`; 0 if nothing. */
  function TakenAt(p: Pass, s: Bytes): (n: nat)
    ensures n <= |s|
  {
    match p
    case Known(value) => if value <= s then |value| else 0
    case Credential(shape) => if Fit(shape, s).Some? then Fit(shape, s).value else 0
  }

  /** ReplaceAll: from left to right, never looking back into what has been replaced. */
  function Replace(p: Pass, s: Bytes): Bytes
    decreases |s|
  {
    if s == "" then ""
    else if TakenAt(p, s) > 0 then REDACTION + Replace(p, s[TakenAt(p, s)..])
    else [s[0]] + Replace(p, s[1..])
  }

  /** The texts a pass is there to take out. */
  ghost predicate Secret(p: Pass, w: Bytes) {
    match p
    case Known(value) => w == value
    case Credential(shape) => Matches(shape, w)
  }

  lemma TakenIffSecret(p: Pass, s: Bytes, n: nat)
    requires 0 < n <= |s| && Secret(p, s[..n]) && (p.Credential? ==> !Matches(p.shape, ""))
    ensures TakenAt(p, s) > 0
  {
    match p
    case Known(value) =>
    case Credential(shape) =>
      FitFinds(shape, s, n);
      FitMatches(shape, s);
      assert s[..0] == "";
  }

  predicate Occurs(w: Bytes, s: Bytes) {
    exists i :: 0 <= i <= |s| && w <= s[i..]
  }

  /** Without angle brackets. */
  predicate Plain(w: Bytes) {
    '<' !in w && '>' !in w
  }

  /** Laid over each other at their first characters, the two texts nowhere disagree. */
  predicate Meet(w: Bytes, m: Bytes) {
    w <= m || m <= w
  }

  /** No end of the text, the whole of it included, is a beginning of the marker or begins with the marker. */
  predicate EndsApart(w: Bytes) {
    forall i :: 0 <= i < |w| ==> !Meet(w[i..], REDACTION)
  }

  /** The text is no part of what follows the marker's first character, and does not begin with an end of the marker. */
  predicate BeginsApart(w: Bytes) {
    forall k :: 0 < k < |REDACTION| ==> !Meet(w, REDACTION[k..])
  }

  /**
   However the text is laid over a marker, so that they share at least one place, they disagree: it is no part of a
   marker, holds none, does not begin with the end of one and does not end with the beginning of one.
   */
  predicate Apart(w: Bytes) {
    w != "" && EndsApart(w) && BeginsApart(w)
  }

  lemma ReplacedStarts(p: Pass, s: Bytes)
    requires s != ""
    ensures Replace(p, s) != ""
    ensures TakenAt(p, s) > 0 ==> Replace(p, s)[0] == '<'
    ensures TakenAt(p, s) == 0 ==> Replace(p, s)[0] == s[0] && Replace(p, s)[1..] == Replace(p, s[1..])
  {
  }

  lemma EndsApartTail(w: Bytes)
    requires w != "" && EndsApart(w)
    ensures EndsApart(w[1..])
  {
    forall i | 0 <= i < |w[1..]| ensures !Meet(w[1..][i..], REDACTION) {
      assert w[1..][i..] == w[i + 1..];
    }
  }

  lemma StartsWithMarker(w: Bytes, t: Bytes)
    requires w <= REDACTION + t
    ensures Meet(w, REDACTION)
  {
    if |w| <= |REDACTION| {
      assert w == (REDACTION + t)[..|w|] == REDACTION[..|w|];
    } else {
      assert w[..|REDACTION|] == (REDACTION + t)[..|REDACTION|] == REDACTION;
    }
  }

  /** A text whose ends stay apart from markers was there before if it begins a replaced string. */
  lemma {:induction false} PrefixWasThere(p: Pass, w: Bytes, s: Bytes)
    requires EndsApart(w) && w <= Replace(p, s)
    ensures w <= s && (w != "" ==> TakenAt(p, s) == 0)
    decreases |s|
  {
    if w != "" {
      assert w[0..] == w && !Meet(w, REDACTION);
      if s != "" && TakenAt(p, s) > 0 {
        StartsWithMarker(w, Replace(p, s[TakenAt(p, s)..]));
      }
      ReplacedStarts(p, s);
      EndsApartTail(w);
      assert w[1..] <= Replace(p, s)[1..];
      PrefixWasThere(p, w[1..], s[1..]);
      assert w == [w[0]] + w[1..] && s == [s[0]] + s[1..];
    }
  }

  /** A text that begins inside a marker, whatever follows the marker, is not apart from it. */
  lemma FromMarker(w: Bytes, t: Bytes, i: nat)
    requires w != "" && i < |REDACTION| && w <= (REDACTION + t)[i..]
    ensures !Apart(w)
  {
    if i == 0 {
      assert (REDACTION + t)[0..] == REDACTION + t && w[0..] == w;
      StartsWithMarker(w, t);
    } else {
      var m := REDACTION[i..];
      assert (REDACTION + t)[i..] == m + t;
      if |w| <= |m| {
        assert w == (m + t)[..|w|] == m[..|w|];
      } else {
        assert w[..|m|] == (m + t)[..|m|] == m;
      }
      assert Meet(w, REDACTION[i..]);
    }
  }

  /** Past a marker, an occurrence lies in what follows it. */
  lemma PastMarker(w: Bytes, t: Bytes)
    requires Apart(w) && Occurs(w, REDACTION + t)
    ensures Occurs(w, t)
  {
    hide Apart;
    ApartIsSome(w);
    var r := REDACTION + t;
    var at :| 0 <= at <= |r| && w <= r[at..];
    if at < |REDACTION| {
      FromMarker(w, t, at);
    } else {
      assert r[at..] == t[at - |REDACTION|..];
    }
  }

  lemma ApartIsSome(w: Bytes)
    requires Apart(w)
    ensures w != "" && EndsApart(w)
  {
  }

  /** A text apart from markers that occurs in a replaced string was there before, where nothing was taken out. */
  lemma {:induction false} OccurrenceWasThere(p: Pass, w: Bytes, s: Bytes) returns (i: nat)
    requires Apart(w) && Occurs(w, Replace(p, s))
    ensures i <= |s| && w <= s[i..] && TakenAt(p, s[i..]) == 0
    decreases |s|
  {
    hide TakenAt, Apart, EndsApart;
    var r := Replace(p, s);
    var n := TakenAt(p, s);
    ApartIsSome(w);
    if s != "" && n > 0 {
      PastMarker(w, Replace(p, s[n..]));
      i := OccurrenceWasThere(p, w, s[n..]);
      assert s[n..][i..] == s[n + i..];
      i := n + i;
    } else {
      var at :| 0 <= at <= |r| && w <= r[at..];
      if at == 0 {
        assert r[0..] == r && s[0..] == s;
        PrefixWasThere(p, w, s);
        i := 0;
      } else {
        ReplacedStarts(p, s);
        assert r[at..] == r[1..][at - 1..];
        i := OccurrenceWasThere(p, w, s[1..]);
        assert s[1..][i..] == s[i + 1..];
        i := i + 1;
      }
    }
  }

  /** No pass brings about a text that is apart from markers. */
  lemma PassBringsNothing(p: Pass, w: Bytes, s: Bytes)
    requires Apart(w) && !Occurs(w, s)
    ensures !Occurs(w, Replace(p, s))
  {
    if Occurs(w, Replace(p, s)) {
      var i := OccurrenceWasThere(p, w, s);
    }
  }

  /** A pass whose secrets are all apart from markers. */
  ghost predicate Sound(p: Pass) {
    forall w :: Secret(p, w) ==> Apart(w)
  }

  ghost predicate Clean(p: Pass, s: Bytes) {
    forall w :: Secret(p, w) ==> !Occurs(w, s)
  }

  /** A pass takes out everything it is there for. */
  lemma PassCleans(p: Pass, s: Bytes)
    requires Sound(p)
    ensures Clean(p, Replace(p, s))
  {
    forall w | Secret(p, w) ensures !Occurs(w, Replace(p, s)) {
      if Occurs(w, Replace(p, s)) {
        var i := OccurrenceWasThere(p, w, s);
        assert s[i..][..|w|] == w;
        assert p.Credential? ==> !Secret(p, "");
        TakenIffSecret(p, s[i..], |w|);
      }
    }
  }

  lemma OtherPassKeepsClean(p: Pass, q: Pass, s: Bytes)
    requires Sound(p) && Clean(p, s)
    ensures Clean(p, Replace(q, s))
  {
    forall w | Secret(p, w) ensures !Occurs(w, Replace(q, s)) {
      PassBringsNothing(q, w, s);
    }
  }

  lemma TakenOccurs(p: Pass, s: Bytes)
    requires TakenAt(p, s) > 0
    ensures Secret(p, s[..TakenAt(p, s)]) && Occurs(s[..TakenAt(p, s)], s)
  {
    if p.Credential? {
      FitMatches(p.shape, s);
    }
    assert s[0..] == s;
  }

  lemma OccursLater(w: Bytes, s: Bytes)
    requires s != "" && Occurs(w, s[1..])
    ensures Occurs(w, s)
  {
    var i :| 0 <= i <= |s| - 1 && w <= s[1..][i..];
    assert s[1..][i..] == s[i + 1..];
  }

  lemma CleanTail(p: Pass, s: Bytes)
    requires Clean(p, s) && s != ""
    ensures Clean(p, s[1..]) && TakenAt(p, s) == 0
  {
    hide Secret, TakenAt, Occurs;
    if TakenAt(p, s) > 0 {
      TakenOccurs(p, s);
    }
    forall w | Secret(p, w) ensures !Occurs(w, s[1..]) {
      if Occurs(w, s[1..]) {
        OccursLater(w, s);
      }
    }
  }

  /** A pass leaves alone what is clean for it. */
  lemma {:induction false} CleanStays(p: Pass, s: Bytes)
    requires Clean(p, s)
    ensures Replace(p, s) == s
    decreases |s|
  {
    hide Clean, TakenAt;
    if s != "" {
      CleanTail(p, s);
      CleanStays(p, s[1..]);
    }
  }

  // ---- The sanitizer ----

  function Passes(knownValues: seq<Bytes>): seq<Pass> {
    if knownValues == [] then []
    else
      Passes(knownValues[..|knownValues| - 1]) +
      (if |knownValues[|knownValues| - 1]| < 4 then [] else [Known(knownValues[|knownValues| - 1])])
  }

  function Shapes(n: nat): seq<Pass>
    requires n <= |PATTERNS|
  {
    if n == 0 then [] else Shapes(n - 1) + [Credential(PATTERNS[n - 1])]
  }

  function ReplaceAll(passes: seq<Pass>, s: Bytes): Bytes {
    if passes == [] then s else Replace(passes[|passes| - 1], ReplaceAll(passes[..|passes| - 1], s))
  }

  function AllPasses(knownValues: seq<Bytes>): seq<Pass> {
    Passes(knownValues) + Shapes(|PATTERNS|)
  }

  function Sanitized(body: Bytes, knownValues: seq<Bytes>): Bytes {
    ReplaceAll(AllPasses(knownValues), body)
  }

  lemma OneMorePass(passes: seq<Pass>, p: Pass, s: Bytes)
    ensures ReplaceAll(passes + [p], s) == Replace(p, ReplaceAll(passes, s))
  {
    assert (passes + [p])[..|passes|] == passes;
  }

  lemma {:induction false} NothingInNothing(passes: seq<Pass>)
    ensures ReplaceAll(passes, "") == ""
    decreases |passes|
  {
    if passes != [] {
      NothingInNothing(passes[..|passes| - 1]);
    }
  }

  lemma OneMoreValue(knownValues: seq<Bytes>, i: nat)
    requires i < |knownValues|
    ensures Passes(knownValues[..i + 1]) ==
            if |knownValues[i]| < 4 then Passes(knownValues[..i])
                else Passes(knownValues[..i]) + [Known(knownValues[i])]
  {
    assert knownValues[..i + 1][..i] == knownValues[..i];
  }

  lemma NoPasses(body: Bytes)
    ensures ReplaceAll([], body) == body && Passes([]) == []
  {
  }

  // ---- Redaction said without the search ----

  /** The longest secret at the start of `s`. */
  ghost predicate LongestSecret(p: Pass, s: Bytes, n: nat) {
    && 0 < n <= |s| && Secret(p, s[..n])
    && forall m: nat :: n < m <= |s| ==> !Secret(p, s[..m])
  }

  ghost predicate NoSecret(p: Pass, s: Bytes) {
    forall m: nat :: 0 < m <= |s| ==> !Secret(p, s[..m])
  }

  /**
   From left to right, the marker stands for the longest secret that begins at a place, the whole of it, and what begins
   no secret is kept.
   */
  ghost predicate Redacts(p: Pass, s: Bytes, out: Bytes)
    decreases |s|
  {
    if s == "" then out == ""
    else if NoSecret(p, s) then out != "" && out[0] == s[0] && Redacts(p, s[1..], out[1..])
    else exists n: nat ::
      LongestSecret(p, s, n) && REDACTION <= out && Redacts(p, s[n..], out[|REDACTION|..])
  }

  /** There is only one such text. */
  lemma {:induction false} RedactsOneWay(p: Pass, s: Bytes, a: Bytes, b: Bytes)
    requires Redacts(p, s, a) && Redacts(p, s, b)
    ensures a == b
    decreases |s|
  {
    if s != "" {
      if NoSecret(p, s) {
        RedactsOneWay(p, s[1..], a[1..], b[1..]);
        assert a == [s[0]] + a[1..] && b == [s[0]] + b[1..];
      } else {
        var n: nat :| LongestSecret(p, s, n) && REDACTION <= a && Redacts(p, s[n..], a[|REDACTION|..]);
        var k: nat :| LongestSecret(p, s, k) && REDACTION <= b && Redacts(p, s[k..], b[|REDACTION|..]);
        assert n == k;
        RedactsOneWay(p, s[n..], a[|REDACTION|..], b[|REDACTION|..]);
        assert a == REDACTION + a[|REDACTION|..] && b == REDACTION + b[|REDACTION|..];
      }
    }
  }

  /** The pass looks for a text that is not empty, or by a search that finds the longest one. */
  ghost predicate Greedy(p: Pass) {
    match p
    case Known(value) => value != ""
    case Credential(shape) => Longest(shape)
  }

  lemma TakenIsLongest(p: Pass, s: Bytes)
    requires Greedy(p)
    ensures if TakenAt(p, s) > 0 then LongestSecret(p, s, TakenAt(p, s)) else NoSecret(p, s)
  {
    if p.Credential? {
      forall m: nat | 0 < m <= |s| && Matches(p.shape, s[..m]) ensures m <= TakenAt(p, s) {
        FoundIsLongest(p.shape, s, m);
      }
      if Fit(p.shape, s).Some? {
        FitMatches(p.shape, s);
      }
    }
  }

  /** Replacing computes it. */
  lemma {:induction false} ReplaceRedacts(p: Pass, s: Bytes)
    requires Greedy(p)
    ensures Redacts(p, s, Replace(p, s))
    decreases |s|
  {
    hide TakenAt, Secret;
    if s != "" {
      TakenIsLongest(p, s);
      var n := TakenAt(p, s);
      if n > 0 {
        ReplaceRedacts(p, s[n..]);
        assert Replace(p, s)[|REDACTION|..] == Replace(p, s[n..]);
        assert LongestSecret(p, s, n);
      } else {
        ReplaceRedacts(p, s[1..]);
        assert Replace(p, s)[1..] == Replace(p, s[1..]);
      }
    }
  }

  /** A known value of fewer than four bytes is passed over. */
  ghost predicate ValueRedacted(value: Bytes, s: Bytes, out: Bytes) {
    if |value| < 4 then out == s else Redacts(Known(value), s, out)
  }

  ghost predicate ShapeRedacted(shape: Shape, s: Bytes, out: Bytes) {
    Redacts(Credential(shape), s, out)
  }

  /** One pass for each known value, in order. */
  ghost predicate ValuesRedacted(body: Bytes, knownValues: seq<Bytes>, out: Bytes)
    decreases |knownValues|
  {
    if knownValues == [] then out == body
    else
      var last := knownValues[|knownValues| - 1];
      exists mid :: ValuesRedacted(body, knownValues[..|knownValues| - 1], mid) && ValueRedacted(last, mid, out)
  }

  /** One pass for each of the first `n` shapes, in order. */
  ghost predicate ShapesRedacted(s: Bytes, n: nat, out: Bytes)
    requires n <= |PATTERNS|
  {
    if n == 0 then out == s
    else
      var last := PATTERNS[n - 1];
      exists mid :: ShapesRedacted(s, n - 1, mid) && ShapeRedacted(last, mid, out)
  }

  lemma {:induction false} ValuesInTurn(body: Bytes, knownValues: seq<Bytes>)
    ensures ValuesRedacted(body, knownValues, ReplaceAll(Passes(knownValues), body))
    decreases |knownValues|
  {
    hide Redacts, Replace;
    if knownValues != [] {
      var first, last := knownValues[..|knownValues| - 1], knownValues[|knownValues| - 1];
      ValuesInTurn(body, first);
      var mid := ReplaceAll(Passes(first), body);
      if |last| < 4 {
        assert Passes(knownValues) == Passes(first) + [] == Passes(first);
      } else {
        OneMorePass(Passes(first), Known(last), body);
        ReplaceRedacts(Known(last), mid);
      }
      assert ValueRedacted(last, mid, ReplaceAll(Passes(knownValues), body));
    }
  }

  lemma {:induction false} ShapesInTurn(passes: seq<Pass>, body: Bytes, n: nat)
    requires n <= |PATTERNS|
    ensures ShapesRedacted(ReplaceAll(passes, body), n, ReplaceAll(passes + Shapes(n), body))
    decreases n
  {
    hide Redacts, Replace;
    if n == 0 {
      assert passes + Shapes(0) == passes;
    } else {
      ShapesInTurn(passes, body, n - 1);
      PatternsLongest(n - 1);
      var p := Credential(PATTERNS[n - 1]);
      assert passes + Shapes(n) == passes + Shapes(n - 1) + [p];
      OneMorePass(passes + Shapes(n - 1), p, body);
      ReplaceRedacts(p, ReplaceAll(passes + Shapes(n - 1), body));
      assert ShapeRedacted(PATTERNS[n - 1], ReplaceAll(passes + Shapes(n - 1), body),
          ReplaceAll(passes + Shapes(n), body));
    }
  }

  /** The known values, then the shapes, each taken out whole wherever it begins. */
  ghost predicate RedactedInTurn(body: Bytes, knownValues: seq<Bytes>, out: Bytes) {
    exists mid :: ValuesRedacted(body, knownValues, mid) && ShapesRedacted(mid, |PATTERNS|, out)
  }

  lemma SanitizedInTurn(body: Bytes, knownValues: seq<Bytes>)
    ensures RedactedInTurn(body, knownValues, Sanitized(body, knownValues))
  {
    hide ValuesRedacted, ShapesRedacted, ReplaceAll, Passes, Shapes;
    ValuesInTurn(body, knownValues);
    ShapesInTurn(Passes(knownValues), body, |PATTERNS|);
  }

  method Sanitize(body: Bytes, knownValues: seq<Bytes>) returns (out: Bytes)
    ensures out == Sanitized(body, knownValues)
    ensures RedactedInTurn(body, knownValues, out)
  {
    SanitizedInTurn(body, knownValues);
    hide Replace, ReplaceAll, Passes, RedactedInTurn;
    NoPasses(body);
    if |body| == 0 {
      NothingInNothing(AllPasses(knownValues));
      return body;
    }
    out := body;
    for i := 0 to |knownValues|
      invariant out == ReplaceAll(Passes(knownValues[..i]), body)
    {
      var v := knownValues[i];
      OneMoreValue(knownValues, i);
      if |v| < 4 {
        continue;
      }
      OneMorePass(Passes(knownValues[..i]), Known(v), body);
      out := Replace(Known(v), out);
    }
    assert knownValues[..|knownValues|] == knownValues;
    assert Passes(knownValues) + Shapes(0) == Passes(knownValues);
    for i := 0 to |PATTERNS|
      invariant out == ReplaceAll(Passes(knownValues) + Shapes(i), body)
    {
      OneMorePass(Passes(knownValues) + Shapes(i), Credential(PATTERNS[i]), body);
      assert Passes(knownValues) + Shapes(i + 1) == Passes(knownValues) + Shapes(i) + [Credential(PATTERNS[i])];
      out := Replace(Credential(PATTERNS[i]), out);
    }
  }
}
