/** What redaction guarantees about the text that is kept. */
module Redaction {
  import opened Sanitizer

  // ---- Every credential shape speaks of texts that are apart from markers ----

  predicate BracketFree(shape: Shape) {
    forall i :: 0 <= i < |shape| ==>
      match shape[i]
      case Literal(text) => Plain(text)
      case Run(cls, _, _) => !In('<', cls) && !In('>', cls)
  }

  lemma {:induction false} MatchesPlain(shape: Shape, w: Bytes)
    requires BracketFree(shape) && Matches(shape, w)
    ensures Plain(w)
    decreases |shape|
  {
    if shape != [] {
      var k: nat;
      match shape[0] {
        case Literal(text) => k := |text|;
        case Run(_, _, _) => k :| Takes(shape[0], w, k) && Matches(shape[1..], w[k..]);
      }
      MatchesPlain(shape[1..], w[k..]);
      assert w == w[..k] + w[k..];
      assert Plain(w[..k]);
    }
  }

  lemma {:induction false} MatchesContains(shape: Shape, w: Bytes, i: nat, c: char)
    requires Matches(shape, w) && i < |shape| && shape[i].Literal? && c in shape[i].text
    ensures c in w
    decreases |shape|
  {
    var k: nat;
    match shape[0] {
      case Literal(text) => k := |text|;
      case Run(_, _, _) => k :| Takes(shape[0], w, k) && Matches(shape[1..], w[k..]);
    }
    assert w == w[..k] + w[k..];
    if i > 0 {
      MatchesContains(shape[1..], w[k..], i - 1, c);
    }
  }

  function Size(part: Part): nat {
    match part
    case Literal(text) => |text|
    case Run(_, min, _) => min
  }

  function MinLength(shape: Shape): nat {
    if shape == [] then 0
    else Size(shape[0]) + MinLength(shape[1..])
  }

  lemma {:induction false} MatchesLength(shape: Shape, w: Bytes)
    requires Matches(shape, w)
    ensures |w| >= MinLength(shape)
    decreases |shape|
  {
    if shape != [] {
      var k: nat;
      match shape[0] {
        case Literal(text) => k := |text|;
        case Run(_, _, _) => k :| Takes(shape[0], w, k) && Matches(shape[1..], w[k..]);
      }
      MatchesLength(shape[1..], w[k..]);
    }
  }

  lemma InsideIsSmall(w: Bytes)
    requires Occurs(w, INSIDE)
    ensures |w| <= |INSIDE| && forall c :: c in w ==> c in INSIDE
  {
    var i :| 0 <= i <= |INSIDE| && w <= INSIDE[i..];
    forall c | c in w ensures c in INSIDE {
      var j :| 0 <= j < |w| && w[j] == c;
      assert INSIDE[i..][j] == c;
    }
  }

  lemma InsideIsNotApart(w: Bytes)
    requires Occurs(w, INSIDE)
    ensures !Apart(w)
  {
    var i :| 0 <= i <= |INSIDE| && w <= INSIDE[i..];
    assert REDACTION[i + 1..] == INSIDE[i..] + ">";
    assert w <= REDACTION[i + 1..] && Meet(w, REDACTION[i + 1..]);
  }

  lemma PlainEndsApart(w: Bytes)
    requires Plain(w)
    ensures EndsApart(w)
  {
    forall i | 0 <= i < |w| ensures !Meet(w[i..], REDACTION) {
      assert w[i..][0] == w[i] && w[i] in w;
    }
  }

  /** A text without angle brackets is apart from markers exactly if it is no part of the word in them. */
  lemma PlainApart(w: Bytes)
    requires w != "" && Plain(w)
    ensures Apart(w) <==> !Occurs(w, INSIDE)
  {
    hide Plain, EndsApart, Occurs, Meet;
    if Occurs(w, INSIDE) {
      InsideIsNotApart(w);
    } else {
      PlainEndsApart(w);
      forall k | 0 < k < |REDACTION| ensures !Meet(w, REDACTION[k..]) {
        if Meet(w, REDACTION[k..]) {
          PlainMeetsInside(w, k);
        }
      }
    }
  }

  lemma PlainMeetsInside(w: Bytes, k: nat)
    requires w != "" && Plain(w) && 0 < k < |REDACTION| && Meet(w, REDACTION[k..])
    ensures Occurs(w, INSIDE)
  {
    var m := REDACTION[k..];
    assert m == INSIDE[k - 1..] + ">" && m[|m| - 1] == '>';
    assert forall i :: 0 <= i < |w| ==> w[i] in w;
    assert |w| < |m|;
    assert w == m[..|w|] == INSIDE[k - 1..][..|w|];
    assert w <= INSIDE[k - 1..];
  }

  /** The shape has a literal with a character that "redacted" lacks, or its texts are too long to be part of it. */
  ghost predicate Telling(shape: Shape) {
    MinLength(shape) > |INSIDE| ||
    exists i, c :: 0 <= i < |shape| && shape[i].Literal? && c in shape[i].text && c !in INSIDE
  }

  lemma TellingIsSound(shape: Shape)
    requires BracketFree(shape) && Telling(shape) && MinLength(shape) > 0
    ensures Sanitizer.Sound(Credential(shape))
  {
    forall w | Matches(shape, w) ensures Apart(w) {
      MatchesPlain(shape, w);
      MatchesLength(shape, w);
      if MinLength(shape) <= |INSIDE| {
        var i, c :| 0 <= i < |shape| && shape[i].Literal? && c in shape[i].text && c !in INSIDE;
        MatchesContains(shape, w, i, c);
      }
      if Occurs(w, INSIDE) {
        InsideIsSmall(w);
      }
      PlainApart(w);
    }
  }

  lemma {:induction false} PartLength(shape: Shape, i: nat)
    requires i < |shape|
    ensures MinLength(shape) >= Size(shape[i])
    decreases |shape|
  {
    if i > 0 {
      PartLength(shape[1..], i - 1);
    }
  }

  /** A telling literal settles that a shape is sound. */
  lemma Settled(shape: Shape, telling: nat, c: char)
    requires BracketFree(shape) && MinLength(shape) > 0
    requires telling < |shape| && shape[telling].Literal? && c in shape[telling].text && c !in INSIDE
    ensures Sanitizer.Sound(Credential(shape))
  {
    TellingIsSound(shape);
  }

  lemma GithubSound()
    ensures Sanitizer.Sound(Credential(GITHUB)) && MinLength(GITHUB) >= 4
  {
    assert GITHUB[2].text[0] == '_';
    PartLength(GITHUB, 3);
    Settled(GITHUB, 2, '_');
  }

  lemma SlackSound()
    ensures Sanitizer.Sound(Credential(SLACK)) && MinLength(SLACK) >= 4
  {
    assert SLACK[0].text[0] == 'x';
    PartLength(SLACK[1..], 0);
    assert MinLength(SLACK) == Size(SLACK[0]) + MinLength(SLACK[1..]);
    Settled(SLACK, 0, 'x');
  }

  lemma DiscordSound()
    ensures Sanitizer.Sound(Credential(DISCORD)) && MinLength(DISCORD) >= 4
  {
    assert DISCORD[1].text[0] == '.';
    PartLength(DISCORD, 0);
    Settled(DISCORD, 1, '.');
  }

  lemma AwsSound()
    ensures Sanitizer.Sound(Credential(AWS)) && MinLength(AWS) >= 4
  {
    assert AWS[0].text[0] == 'A';
    PartLength(AWS, 1);
    Settled(AWS, 0, 'A');
  }

  lemma PrivateKeyPlain()
    ensures Plain("-----BEGIN ") && Plain("PRIVATE KEY-----")
  {
  }

  lemma PrivateKeySound()
    ensures Sanitizer.Sound(Credential(PRIVATE_KEY)) && MinLength(PRIVATE_KEY) >= 4
  {
    PrivateKeyPlain();
    assert PRIVATE_KEY[0].text[0] == '-';
    PartLength(PRIVATE_KEY, 0);
    Settled(PRIVATE_KEY, 0, '-');
  }

  lemma BearerSound()
    ensures Sanitizer.Sound(Credential(BEARER)) && MinLength(BEARER) >= 4
  {
    assert BEARER[0].text[0] == 'B';
    PartLength(BEARER, 0);
    Settled(BEARER, 0, 'B');
  }

  lemma AnthropicSound()
    ensures Sanitizer.Sound(Credential(ANTHROPIC)) && MinLength(ANTHROPIC) >= 4
  {
    assert ANTHROPIC[0].text[1] == 'k';
    PartLength(ANTHROPIC, 1);
    Settled(ANTHROPIC, 0, 'k');
  }

  lemma BlobSound()
    ensures Sanitizer.Sound(Credential(BLOB)) && MinLength(BLOB) >= 4
  {
    PartLength(BLOB, 0);
    TellingIsSound(BLOB);
  }

  /** No text of any of the shapes has an angle bracket or is part of the word in the marker, or is under four long. */
  lemma PatternsSound(i: nat)
    requires i < |PATTERNS|
    ensures Sanitizer.Sound(Credential(PATTERNS[i])) && MinLength(PATTERNS[i]) >= 4
  {
    match i
    case 0 => GithubSound();
    case 1 => SlackSound();
    case 2 => DiscordSound();
    case 3 => AwsSound();
    case 4 => PrivateKeySound();
    case 5 => BearerSound();
    case 6 => AnthropicSound();
    case _ => BlobSound();
  }

  // ---- The guarantees ----

  ghost predicate AllSound(passes: seq<Pass>) {
    forall p :: p in passes ==> Sanitizer.Sound(p)
  }

  lemma {:induction false} ShapesSound(n: nat)
    requires n <= |PATTERNS|
    ensures AllSound(Shapes(n)) && forall p :: p in Shapes(n) ==> p.Credential? && MinLength(p.shape) >= 4
    decreases n
  {
    if n > 0 {
      ShapesSound(n - 1);
      PatternsSound(n - 1);
    }
  }

  /** Whatever passes follow, a pass whose secrets are apart from markers leaves none of them. */
  lemma {:induction false} SecretsGone(passes: seq<Pass>, p: Pass, s: Bytes)
    requires p in passes && Sanitizer.Sound(p)
    ensures Clean(p, ReplaceAll(passes, s))
    decreases |passes|
  {
    var first, last := passes[..|passes| - 1], passes[|passes| - 1];
    if p in first {
      SecretsGone(first, p, s);
      OtherPassKeepsClean(p, last, ReplaceAll(first, s));
    } else {
      PassCleans(p, ReplaceAll(first, s));
    }
  }

  lemma {:induction false} KnownIsPass(knownValues: seq<Bytes>, v: Bytes)
    requires v in knownValues && |v| >= 4
    ensures Known(v) in Passes(knownValues)
    decreases |knownValues|
  {
    if v in knownValues[..|knownValues| - 1] {
      KnownIsPass(knownValues[..|knownValues| - 1], v);
    }
  }

  /** A known value of the right kind never occurs in the output, whatever the body and the other known values are. */
  lemma KnownValueGone(body: Bytes, knownValues: seq<Bytes>, v: Bytes)
    requires v in knownValues && |v| >= 4 && Apart(v)
    ensures !Occurs(v, Sanitized(body, knownValues))
  {
    KnownIsPass(knownValues, v);
    SecretsGone(AllPasses(knownValues), Known(v), body);
  }

  /** Nor does any text of a credential shape. */
  lemma CredentialsGone(body: Bytes, knownValues: seq<Bytes>, i: nat, w: Bytes)
    requires i < |PATTERNS| && Matches(PATTERNS[i], w)
    ensures !Occurs(w, Sanitized(body, knownValues))
  {
    PatternsSound(i);
    ShapeIsPass(|PATTERNS|, i);
    SecretsGone(AllPasses(knownValues), Credential(PATTERNS[i]), body);
    assert Secret(Credential(PATTERNS[i]), w);
  }

  lemma {:induction false} ShapeIsPass(n: nat, i: nat)
    requires i < n <= |PATTERNS|
    ensures Credential(PATTERNS[i]) in Shapes(n)
    decreases n
  {
    if i < n - 1 {
      ShapeIsPass(n - 1, i);
    }
  }

  lemma {:induction false} CleanForAll(passes: seq<Pass>, s: Bytes)
    requires forall p :: p in passes ==> Clean(p, s)
    ensures ReplaceAll(passes, s) == s
    decreases |passes|
  {
    if passes != [] {
      CleanForAll(passes[..|passes| - 1], s);
      CleanStays(passes[|passes| - 1], s);
    }
  }

  lemma {:induction false} KnownSound(knownValues: seq<Bytes>)
    requires forall v :: v in knownValues && |v| >= 4 ==> Apart(v)
    ensures AllSound(Passes(knownValues))
    decreases |knownValues|
  {
    if knownValues != [] {
      KnownSound(knownValues[..|knownValues| - 1]);
    }
  }

  /** With known values of the right kind, sanitizing a second time changes nothing. */
  lemma Idempotent(body: Bytes, knownValues: seq<Bytes>)
    requires forall v :: v in knownValues && |v| >= 4 ==> Apart(v)
    ensures Sanitized(Sanitized(body, knownValues), knownValues) == Sanitized(body, knownValues)
  {
    var passes := AllPasses(knownValues);
    KnownSound(knownValues);
    ShapesSound(|PATTERNS|);
    forall p | p in passes ensures Clean(p, Sanitized(body, knownValues)) {
      SecretsGone(passes, p, body);
    }
    CleanForAll(passes, Sanitized(body, knownValues));
  }

  // ---- Which known values are of the right kind ----

  lemma {:induction false} PassesInTurn(first: seq<Pass>, second: seq<Pass>, s: Bytes)
    ensures ReplaceAll(first + second, s) == ReplaceAll(second, ReplaceAll(first, s))
    decreases |second|
  {
    if second == [] {
      assert first + second == first;
    } else {
      assert (first + second)[..|first + second| - 1] == first + second[..|second| - 1];
      PassesInTurn(first, second[..|second| - 1], s);
    }
  }

  lemma {:induction false} KnownTwo(v: Bytes, u: Bytes, body: Bytes)
    requires |v| >= 4 && |u| >= 4
    ensures Sanitized(body, [v, u]) == ReplaceAll(Shapes(|PATTERNS|), Replace(Known(u), Replace(Known(v), body)))
  {
    var ps := [Known(v), Known(u)];
    assert [v, u][..1] == [v] && [v][..0] == [];
    assert Passes([v]) == [Known(v)];
    assert Passes([v, u]) == ps;
    assert AllPasses([v, u]) == ps + Shapes(|PATTERNS|);
    assert ps[..1] == [Known(v)] && [Known(v)][..0] == [];
    assert ReplaceAll([Known(v)], body) == Replace(Known(v), body);
    assert ReplaceAll(ps, body) == Replace(Known(u), Replace(Known(v), body));
    PassesInTurn(ps, Shapes(|PATTERNS|), body);
  }

  // ---- A text around one marker ----

  /** A text apart from markers that occurs around one lies on one side of it. */
  lemma OnOneSide(w: Bytes, a: Bytes, b: Bytes)
    requires Apart(w) && Occurs(w, a + REDACTION + b)
    ensures Occurs(w, a) || Occurs(w, b)
  {
    var s := a + REDACTION + b;
    var at :| 0 <= at <= |s| && w <= s[at..];
    if at >= |a| {
      assert s[at..] == (REDACTION + b)[at - |a|..];
      PastMarker(w, b);
    } else if at + |w| <= |a| {
      assert w == s[at..][..|w|] == a[at..][..|w|];
      assert w <= a[at..];
    } else {
      ReachesMarker(w, a, b, at);
    }
  }

  lemma ReachesMarker(w: Bytes, a: Bytes, b: Bytes, at: nat)
    requires at < |a| < at + |w| && w <= (a + REDACTION + b)[at..]
    ensures Meet(w[|a| - at..], REDACTION)
  {
    var i := |a| - at;
    assert w[i..] == (a + REDACTION + b)[at..][i..|w|] == (REDACTION + b)[..|w| - i];
    StartsWithMarker(w[i..], b);
  }

  lemma OccursWithin(w: Bytes, part: Bytes, s: Bytes)
    requires Occurs(w, part) && Occurs(part, s)
    ensures Occurs(w, s)
  {
    var i :| 0 <= i <= |part| && w <= part[i..];
    var j :| 0 <= j <= |s| && part <= s[j..];
    assert part == s[j..][..|part|];
    assert w == part[i..][..|w|] == s[i + j..][..|w|];
    assert w <= s[i + j..];
  }

  /** The value holds a text of one of the credential shapes. */
  ghost predicate HoldsCredential(v: Bytes) {
    exists i, w :: 0 <= i < |PATTERNS| && Matches(PATTERNS[i], w) && Occurs(w, v)
  }

  /** The shape passes leave a marker alone whose surroundings hold no credential. */
  lemma ShapesLeave(a: Bytes, b: Bytes)
    requires !HoldsCredential(a) && !HoldsCredential(b)
    ensures ReplaceAll(Shapes(|PATTERNS|), a + REDACTION + b) == a + REDACTION + b
  {
    ShapesSound(|PATTERNS|);
    forall p | p in Shapes(|PATTERNS|) ensures Clean(p, a + REDACTION + b) {
      var i := ShapeOf(|PATTERNS|, p);
      forall w | Secret(p, w) ensures !Occurs(w, a + REDACTION + b) {
        if Occurs(w, a + REDACTION + b) {
          OnOneSide(w, a, b);
        }
      }
    }
    CleanForAll(Shapes(|PATTERNS|), a + REDACTION + b);
  }

  lemma {:induction false} ShapeOf(n: nat, p: Pass) returns (i: nat)
    requires n <= |PATTERNS| && p in Shapes(n)
    ensures i < n && p == Credential(PATTERNS[i])
    decreases n
  {
    if p in Shapes(n - 1) {
      i := ShapeOf(n - 1, p);
    } else {
      i := n - 1;
    }
  }

  // ---- Bringing a value back ----

  /** `n` times the same character. */
  function Repeated(x: char, n: nat): (u: Bytes)
    ensures |u| == n && forall i :: 0 <= i < n ==> u[i] == x
  {
    seq(n, _ => x)
  }

  /** A value that occurs across a long run begins or ends in it. */
  lemma TouchesRun(v: Bytes, a: Bytes, b: Bytes, x: char, n: nat, i: nat)
    requires |a| < |v| && |b| < |v| <= n && i <= |a| + n + |b| && v <= (a + Repeated(x, n) + b)[i..]
    ensures v[0] == x || v[|v| - 1] == x
  {
    var u := Repeated(x, n);
    var s := a + u + b;
    assert v == s[i..][..|v|];
    assert v[0] == s[i] && v[|v| - 1] == s[i + |v| - 1];
    if i < |a| {
      assert s[i + |v| - 1] == u[i + |v| - 1 - |a|];
    } else {
      assert s[i] == u[i - |a|];
    }
  }

  lemma NotAcrossRun(v: Bytes, a: Bytes, b: Bytes, x: char, n: nat)
    requires |a| < |v| && |b| < |v| <= n && v[0] != x && v[|v| - 1] != x
    ensures !Occurs(v, a + Repeated(x, n) + b)
  {
    var s := a + Repeated(x, n) + b;
    forall i | 0 <= i <= |s| ensures !(v <= s[i..]) {
      if v <= s[i..] {
        TouchesRun(v, a, b, x, n, i);
      }
    }
  }

  lemma ValueReplaced(v: Bytes, t: Bytes)
    requires v != ""
    ensures Replace(Known(v), v + t) == REDACTION + Replace(Known(v), t)
  {
    assert (v + t)[|v|..] == t;
  }

  lemma NoRunYet(a: Bytes, b: Bytes, x: char, n: nat)
    requires 0 < |a| <= n && a[|a| - 1] != x
    ensures TakenAt(Known(Repeated(x, n)), a + Repeated(x, n) + b) == 0
  {
    assert (a + Repeated(x, n) + b)[|a| - 1] == a[|a| - 1] && Repeated(x, n)[|a| - 1] == x;
  }

  lemma ReplaceKeepsFirst(p: Pass, s: Bytes)
    requires s != "" && TakenAt(p, s) == 0
    ensures Replace(p, s) == [s[0]] + Replace(p, s[1..])
  {
  }

  lemma {:induction false} RunReplaced(a: Bytes, b: Bytes, x: char, n: nat)
    requires |b| < n && |a| <= n && (a != "" ==> a[|a| - 1] != x)
    ensures Replace(Known(Repeated(x, n)), a + Repeated(x, n) + b) == a + REDACTION + b
    decreases |a|
  {
    hide Replace, TakenAt;
    var u := Repeated(x, n);
    if a == "" {
      assert a + u + b == u + b && a + REDACTION + b == REDACTION + b;
      ValueReplaced(u, b);
      TooShortStays(u, b);
    } else {
      var s := a + u + b;
      NoRunYet(a, b, x, n);
      ReplaceKeepsFirst(Known(u), s);
      assert s[1..] == a[1..] + u + b && s[0] == a[0];
      RunReplaced(a[1..], b, x, n);
      assert [a[0]] + (a[1..] + REDACTION + b) == a + REDACTION + b;
    }
  }

  lemma TooShortStays(u: Bytes, b: Bytes)
    requires |b| < |u|
    ensures Replace(Known(u), b) == b
  {
    if Occurs(u, b) {
      OccursFits(u, b);
    }
    CleanStays(Known(u), b);
  }

  /** A value with text on both sides of a marker comes back: the marker stands where another known value stood. */
  lemma ComesBack(v: Bytes, a: Bytes, b: Bytes) returns (body: Bytes, knownValues: seq<Bytes>)
    requires |v| >= 4 && |a| < |v| && |b| < |v| && Occurs(v, a + REDACTION + b)
    requires !HoldsCredential(a) && !HoldsCredential(b)
    ensures v in knownValues && Occurs(v, Sanitized(body, knownValues))
  {
    var x := UnusedChar(v[0], v[|v| - 1], if a == "" then v[0] else a[|a| - 1]);
    var u := Repeated(x, |v|);
    body, knownValues := a + u + b, [v, u];
    NotAcrossRun(v, a, b, x, |v|);
    CleanStays(Known(v), body);
    RunReplaced(a, b, x, |v|);
    KnownTwo(v, u, body);
    ShapesLeave(a, b);
  }

  lemma UnusedChar(c: char, d: char, e: char) returns (x: char)
    ensures x != c && x != d && x != e
  {
    x := if 'k' !in {c, d, e} then 'k' else if 'l' !in {c, d, e} then 'l' else if 'm' !in {c, d, e} then 'm' else 'n';
  }

  /** A value that is not apart from markers occurs around one, short of itself on either side. */
  lemma AroundMarker(v: Bytes) returns (a: Bytes, b: Bytes)
    requires v != "" && !Apart(v)
    ensures |a| < |v| && |b| < |v| && Occurs(v, a + REDACTION + b)
    ensures Occurs(a, v) && Occurs(b, v)
  {
    var i: nat, k: nat;
    if !EndsApart(v) {
      i :| 0 <= i < |v| && Meet(v[i..], REDACTION);
      a, k := v[..i], 0;
    } else {
      k :| 0 < k < |REDACTION| && Meet(v, REDACTION[k..]);
      a, i := "", 0;
    }
    var m := REDACTION[k..];
    var rest := v[i..];
    assert Meet(rest, m);
    b := if |rest| <= |m| then "" else rest[|m|..];
    AllOver(v, i, k, a, b);
  }

  lemma AllOver(v: Bytes, i: nat, k: nat, a: Bytes, b: Bytes)
    requires i < |v| && k < |REDACTION| && (k == 0 || i == 0) && a == v[..i] && Meet(v[i..], REDACTION[k..])
    requires b == if |v| - i <= |REDACTION| - k then "" else v[i + |REDACTION| - k..]
    ensures Occurs(v, a + REDACTION + b) && Occurs(a, v) && Occurs(b, v) && |b| < |v|
  {
    var m := REDACTION[k..];
    assert v == a + v[i..];
    if |v| - i <= |m| {
      assert v[i..] == m[..|v| - i];
      assert b <= v[|v|..];
    } else {
      assert v[i..] == m + b;
      assert b <= v[i + |m|..];
    }
    assert v[0..] == v && a <= v[0..];
    assert v[i..] <= m + b;
    LaidOver(v, a, v[i..], b, k);
  }

  lemma LaidOver(v: Bytes, a: Bytes, rest: Bytes, b: Bytes, k: nat)
    requires k < |REDACTION| && (k == 0 || a == "") && v == a + rest && rest <= REDACTION[k..] + b
    ensures Occurs(v, a + REDACTION + b)
  {
    var s := a + REDACTION + b;
    assert s[k..] == a + (REDACTION[k..] + b);
    assert v <= s[k..];
  }

  lemma ShortOccursNowhere(p: Pass, v: Bytes)
    requires p.Credential? && |v| < MinLength(p.shape)
    ensures Clean(p, v)
  {
    forall w | Secret(p, w) ensures !Occurs(w, v) {
      MatchesLength(p.shape, w);
      if Occurs(w, v) {
        OccursFits(w, v);
      }
    }
  }

  lemma OccursFits(w: Bytes, s: Bytes)
    requires Occurs(w, s)
    ensures |w| <= |s|
  {
    var i :| 0 <= i <= |s| && w <= s[i..];
  }

  lemma ShortValueStays(v: Bytes)
    requires |v| < 4
    ensures Sanitized(v, [v]) == v
  {
    assert [v][..0] == [] && Passes([v]) == [];
    assert AllPasses([v]) == Shapes(|PATTERNS|);
    ShapesSound(|PATTERNS|);
    forall p | p in Shapes(|PATTERNS|) ensures Clean(p, v) {
      ShortOccursNowhere(p, v);
    }
    CleanForAll(Shapes(|PATTERNS|), v);
  }

  lemma HoldingVanishes(body: Bytes, knownValues: seq<Bytes>, v: Bytes)
    requires HoldsCredential(v)
    ensures !Occurs(v, Sanitized(body, knownValues))
  {
    var i, w :| 0 <= i < |PATTERNS| && Matches(PATTERNS[i], w) && Occurs(w, v);
    CredentialsGone(body, knownValues, i, w);
    if Occurs(v, Sanitized(body, knownValues)) {
      OccursWithin(w, v, Sanitized(body, knownValues));
    }
  }

  lemma HeldByPart(part: Bytes, v: Bytes)
    requires HoldsCredential(part) && Occurs(part, v)
    ensures HoldsCredential(v)
  {
    var i, w :| 0 <= i < |PATTERNS| && Matches(PATTERNS[i], w) && Occurs(w, part);
    OccursWithin(w, part, v);
  }

  /** The value is sure to vanish, whatever the body and the other known values are. */
  ghost predicate Vanishes(v: Bytes) {
    forall body, knownValues :: v in knownValues ==> !Occurs(v, Sanitized(body, knownValues))
  }

  /**
   Exactly which known values are sure to vanish, through all passes and whatever the other known values are: those of
   at least four characters that are apart from markers or hold a credential.
   */
  lemma WhichValuesVanish(v: Bytes)
    ensures Vanishes(v) <==> |v| >= 4 && (Apart(v) || HoldsCredential(v))
  {
    if |v| < 4 {
      ShortValueStays(v);
      assert v[0..] == v && v in [v] && Occurs(v, Sanitized(v, [v]));
    } else if Apart(v) || HoldsCredential(v) {
      forall body, knownValues | v in knownValues ensures !Occurs(v, Sanitized(body, knownValues)) {
        if Apart(v) {
          KnownValueGone(body, knownValues, v);
        } else {
          HoldingVanishes(body, knownValues, v);
        }
      }
    } else {
      var a, b := AroundMarker(v);
      if HoldsCredential(a) {
        HeldByPart(a, v);
      }
      if HoldsCredential(b) {
        HeldByPart(b, v);
      }
      var body, knownValues := ComesBack(v, a, b);
      assert v in knownValues && Occurs(v, Sanitized(body, knownValues));
    }
  }

  /** For values without angle brackets and credentials: at least four characters, and no part of the marker's word. */
  lemma WhichPlainValuesVanish(v: Bytes)
    requires Plain(v) && !HoldsCredential(v)
    ensures Vanishes(v) <==> |v| >= 4 && !Occurs(v, INSIDE)
  {
    WhichValuesVanish(v);
    if v != "" {
      PlainApart(v);
    }
  }
}
