/** Name extraction of `handleNameResponse` (script.js:159-209): the two
    capture patterns tried in order, the clean-up pattern applied to the first
    capture, title-casing and the validity test.

    Both patterns and the clean-up pattern run on the lower-cased message.
    Every character class below is written for that lower-cased text, so the
    `i` flag adds nothing under the Latin-1 case mapping of module Text. */
module Names {
  import opened Text

  datatype Option<T> = None | Some(value: T)

  /** The class `[a-záàâãéèêíóôõúç\s]` shared by all three patterns. */
  predicate IsNameChar(c: char) {
    'a' <= c <= 'z' || c == 'á' || c == 'à' || c == 'â' || c == 'ã' || c == 'é' || c == 'è' || c == 'ê'
    || c == 'í' || c == 'ó' || c == 'ô' || c == 'õ' || c == 'ú' || c == 'ç' || IsWhitespace(c)
  }

  /** Every character of `s` is in the name class. */
  predicate IsNameText(s: string) {
    forall c :: c in s ==> IsNameChar(c)
  }

  /** The class `[,.!]`. */
  predicate IsPunct(c: char) {
    c == ',' || c == '.' || c == '!'
  }

  /** End of the longest run of whitespace starting at `j` (what a greedy `\s*` consumes). */
  function WsEnd(s: string, j: nat): (k: nat)
    requires j <= |s|
    ensures j <= k <= |s|
    ensures forall i :: j <= i < k ==> IsWhitespace(s[i])
    ensures k == |s| || !IsWhitespace(s[k])
    decreases |s| - j
  {
    if j < |s| && IsWhitespace(s[j]) then WsEnd(s, j + 1) else j
  }

  /** End of the longest run of name characters starting at `j` (a greedy class run). */
  function RunEnd(s: string, j: nat): (k: nat)
    requires j <= |s|
    ensures j <= k <= |s|
    ensures forall i :: j <= i < k ==> IsNameChar(s[i])
    ensures k == |s| || !IsNameChar(s[k])
    decreases |s| - j
  {
    if j < |s| && IsNameChar(s[j]) then RunEnd(s, j + 1) else j
  }

  /** The greedy class run starting at a name character. */
  function RunAt(s: string, i: nat): (r: string)
    requires i < |s| && IsNameChar(s[i])
    ensures |r| > 0 && IsNameText(r)
  {
    s[i..RunEnd(s, i)]
  }

  /** Prefix alternatives of the first pattern (script.js:167), in their order. */
  const GreetingPrefixes: seq<string> :=
    ["olá", "oi", "prazer", "meu nome é", "eu me chamo", "é", "sou", "meu nome eh", "eu sou"]

  /** Prefix alternatives of the clean-up pattern (script.js:177), in their order. */
  const CleanupPrefixes: seq<string> :=
    ["meu nome é", "eu me chamo", "é", "sou", "meu nome eh", "eu sou", "prazer", "oi", "olá", "ola"]

  /** The capture of `\s*[,.!]?\s*([class]+)` matched from index `j`, the part
      of the first pattern after a prefix, under JavaScript's backtracking
      order. The greedy path takes all whitespace, a punctuation mark if one
      follows, all whitespace again and then the class run. When no class
      character follows that, the engine gives back the last whitespace
      character taken by the second `\s*`, or failing that by the first one,
      and the capture is that single whitespace character. */
  function AfterPrefix(s: string, j: nat): (r: Option<string>)
    requires j <= |s|
    ensures r.Some? ==> |r.value| > 0 && IsNameText(r.value)
    ensures r.Some? <==>
      j < |s| && (IsNameChar(s[j]) || (IsPunct(s[j]) && j + 1 < |s| && IsNameChar(s[j + 1])))
  {
    var k1 := WsEnd(s, j);
    if k1 < |s| && IsPunct(s[k1]) && AfterPunct(s, k1).Some? then AfterPunct(s, k1)
    else if k1 < |s| && IsNameChar(s[k1]) then Some(RunAt(s, k1))
    else if k1 > j then Some(s[k1 - 1..k1])
    else None
  }

  /** The capture of `\s*([class]+)` matched after the punctuation mark at
      `k`, giving back the last whitespace character when no class
      character follows. */
  function AfterPunct(s: string, k: nat): (r: Option<string>)
    requires k < |s|
    ensures r.Some? ==> |r.value| > 0 && IsNameText(r.value)
    ensures r.Some? <==> k + 1 < |s| && IsNameChar(s[k + 1])
  {
    var k3 := WsEnd(s, k + 1);
    if k3 < |s| && IsNameChar(s[k3]) then Some(RunAt(s, k3))
    else if k3 > k + 1 then Some(s[k3 - 1..k3])
    else None
  }

  /** The first prefix alternative that occurs at `i` and after which the rest
      of the pattern matches, with its capture. */
  function AltMatch(s: string, i: nat, alts: seq<string>): (r: Option<string>)
    requires i <= |s|
    ensures r.Some? ==> |r.value| > 0 && IsNameText(r.value)
  {
    if alts == [] then None
    else if OccursAt(s, alts[0], i) && AfterPrefix(s, i + |alts[0]|).Some? then AfterPrefix(s, i + |alts[0]|)
    else AltMatch(s, i, alts[1..])
  }

  /** One match attempt of the first pattern starting at `i`: the optional
      prefix group is tried first; when it cannot match, the group is
      skipped and the class run must start at `i`. */
  function AttemptAt(s: string, i: nat, alts: seq<string>): (r: Option<string>)
    requires i <= |s|
    ensures r.Some? ==> |r.value| > 0 && IsNameText(r.value)
  {
    match AltMatch(s, i, alts)
    case Some(c) => Some(c)
    case None => if i < |s| && IsNameChar(s[i]) then Some(RunAt(s, i)) else None
  }

  /** An unanchored search: attempts at `i`, `i + 1`, ... up to `|s|`. */
  function SearchFrom(s: string, i: nat, alts: seq<string>): (r: Option<string>)
    requires i <= |s|
    ensures r.Some? ==> |r.value| > 0 && IsNameText(r.value)
    decreases |s| - i
  {
    match AttemptAt(s, i, alts)
    case Some(c) => Some(c)
    case None => if i < |s| then SearchFrom(s, i + 1, alts) else None
  }

  /** Capture group 1 of the first pattern (script.js:167). */
  function GreetingMatch(s: string): (r: Option<string>)
    ensures r.Some? ==> |r.value| > 0 && IsNameText(r.value)
  {
    SearchFrom(s, 0, GreetingPrefixes)
  }

  /** Capture group 1 of the second pattern `^([class]+)$` (script.js:169). */
  function WholeMatch(s: string): (r: Option<string>)
    ensures r.Some? ==> |r.value| > 0 && IsNameText(r.value)
  {
    if s != [] && IsNameText(s) then Some(s) else None
  }

  /** The clean-up pattern after a prefix ending at `j`, on name text (which
      holds no punctuation): the greedy whitespace, then a class run that must
      reach the end; if the whitespace reaches the end, it gives one back. */
  function CleanupTail(p: string, j: nat): (r: Option<string>)
    requires j <= |p| && IsNameText(p)
    ensures r.Some? ==> |r.value| > 0 && IsNameText(r.value)
  {
    var k1 := WsEnd(p, j);
    if k1 < |p| then Some(p[k1..])
    else if k1 > j then Some(p[k1 - 1..])
    else None
  }

  function CleanupAlt(p: string, alts: seq<string>): (r: Option<string>)
    requires IsNameText(p)
    ensures r.Some? ==> |r.value| > 0 && IsNameText(r.value)
  {
    if alts == [] then None
    else if OccursAt(p, alts[0], 0) && CleanupTail(p, |alts[0]|).Some? then CleanupTail(p, |alts[0]|)
    else CleanupAlt(p, alts[1..])
  }

  /** Capture group 1 of the anchored clean-up pattern (script.js:177), on the
      name text that line 176 hands it. */
  function CleanupMatch(p: string): (r: Option<string>)
    requires IsNameText(p)
    ensures r.Some? ==> |r.value| > 0 && IsNameText(r.value)
  {
    match CleanupAlt(p, CleanupPrefixes)
    case Some(c) => Some(c)
    case None => if p != [] then Some(p) else None
  }

  /** Lines 176-182: trim the capture, strip a greeting with the clean-up
      pattern and trim again; keep the trimmed capture if that fails. */
  function Refine(capture: string): (r: string)
    requires IsNameText(capture)
    ensures IsTrimmed(r) && IsNameText(r)
  {
    var potential := Trim(capture);
    match CleanupMatch(potential)
    case Some(c) => Trim(c)
    case None => potential
  }

  datatype NamePattern = GreetingPattern | WholePattern

  /** The `regexPatterns` array, in order. */
  const NamePatterns: seq<NamePattern> := [GreetingPattern, WholePattern]

  function Capture(p: NamePattern, s: string): (r: Option<string>)
    ensures r.Some? ==> |r.value| > 0 && IsNameText(r.value)
  {
    match p
    case GreetingPattern => GreetingMatch(s)
    case WholePattern => WholeMatch(s)
  }

  /** The loop of script.js:172-185: the first pattern whose capture is non-empty
      decides; "" when none matches. */
  function DetectNameWith(lower: string, patterns: seq<NamePattern>): (r: string)
    ensures IsTrimmed(r) && IsNameText(r)
  {
    if patterns == [] then ""
    else match Capture(patterns[0], lower)
      case Some(c) => Refine(c)
      case None => DetectNameWith(lower, patterns[1..])
  }

  /** `detectedName` after the loop, before title-casing. */
  function DetectName(lower: string): (r: string)
    ensures IsTrimmed(r) && IsNameText(r)
  {
    DetectNameWith(lower, NamePatterns)
  }

  /** `s.split(sep)` for a one-character separator. */
  function Split(s: string, sep: char): (parts: seq<string>)
    ensures |parts| >= 1
    ensures forall w :: w in parts ==> sep !in w
  {
    if s == [] then [[]]
    else if s[0] == sep then [[]] + Split(s[1..], sep)
    else var rest := Split(s[1..], sep); [[s[0]] + rest[0]] + rest[1..]
  }

  /** `parts.join(sep)`. */
  function Join(parts: seq<string>, sep: char): string {
    if parts == [] then []
    else if |parts| == 1 then parts[0]
    else parts[0] + [sep] + Join(parts[1..], sep)
  }

  /** The mapped word of script.js:189: first character upper-cased, the rest lower-cased. */
  function CapitalizeWord(w: string): (r: string)
    ensures |r| == |w|
  {
    if |w| > 0 then [UpperChar(w[0])] + ToLower(w[1..]) else []
  }

  function CapitalizeWords(parts: seq<string>): (r: seq<string>)
    ensures |r| == |parts|
  {
    seq(|parts|, i requires 0 <= i < |parts| => CapitalizeWord(parts[i]))
  }

  /** Script.js:188-190: split on ' ', capitalize each word, join, trim. */
  function TitleCase(s: string): string {
    Trim(Join(CapitalizeWords(Split(s, ' ')), ' '))
  }

  /** What title-casing puts at index `k` of `s`: a word start (index 0 or
      just after a space) is upper-cased, every other character lower-cased. */
  function CapitalizedAt(s: string, k: nat): char
    requires k < |s|
  {
    if k == 0 || s[k - 1] == ' ' then UpperChar(s[k]) else LowerChar(s[k])
  }

  predicate IsCapitalizationOf(c: string, s: string) {
    |c| == |s| && forall k :: 0 <= k < |s| ==> c[k] == CapitalizedAt(s, k)
  }

  /** The name message handling accepts: trimmed, lower-cased, then matched and title-cased. */
  function ExtractName(message: string): string {
    TitleCase(DetectName(ToLower(message)))
  }

  /** The rejection test of script.js:194. */
  predicate NameRejected(name: string) {
    Utf16Length(name) < 2 || HasDigit(name)
  }

  // ---------------------------------------------------------------------
  // Where the first pattern matches

  lemma {:induction false} AltMatchNeedsNameChar(s: string, i: nat, alts: seq<string>)
    requires i <= |s| && (i == |s| || !IsNameChar(s[i]))
    requires forall a :: a in alts ==> |a| > 0 && IsNameChar(a[0])
    ensures AltMatch(s, i, alts) == None
  {
    if alts != [] {
      assert alts[0] in alts;
      AltMatchNeedsNameChar(s, i, alts[1..]);
    }
  }

  /** The search succeeds exactly when a name character lies ahead. */
  lemma {:induction false} SearchFindsNameChar(s: string, i: nat, alts: seq<string>)
    requires i <= |s|
    requires forall a :: a in alts ==> |a| > 0 && IsNameChar(a[0])
    ensures SearchFrom(s, i, alts).Some? <==> exists k :: i <= k < |s| && IsNameChar(s[k])
    decreases |s| - i
  {
    if i < |s| && IsNameChar(s[i]) {
      assert AttemptAt(s, i, alts).Some?;
    } else {
      AltMatchNeedsNameChar(s, i, alts);
      if i < |s| {
        SearchFindsNameChar(s, i + 1, alts);
        if exists k :: i <= k < |s| && IsNameChar(s[k]) {
          var k :| i <= k < |s| && IsNameChar(s[k]);
          assert i + 1 <= k;
        }
      }
    }
  }

  /** The search skips what precedes the first name character and attempts
      its match there. */
  lemma {:induction false} SearchStartsAt(s: string, i: nat, alts: seq<string>, k: nat)
    requires i <= k < |s| && IsNameChar(s[k]) && forall m :: i <= m < k ==> !IsNameChar(s[m])
    requires forall a :: a in alts ==> |a| > 0 && IsNameChar(a[0])
    ensures SearchFrom(s, i, alts) == AttemptAt(s, k, alts)
    decreases k - i
  {
    if i < k {
      AltMatchNeedsNameChar(s, i, alts);
      assert SearchFrom(s, i, alts) == SearchFrom(s, i + 1, alts);
      SearchStartsAt(s, i + 1, alts, k);
    }
  }

  lemma GreetingPrefixesStartWithNameChar()
    ensures forall a :: a in GreetingPrefixes ==> |a| > 0 && IsNameChar(a[0])
  {
  }

  /** The first pattern matches exactly when the message holds a name character. */
  lemma GreetingMatchFound(s: string)
    ensures GreetingMatch(s).Some? <==> exists k :: 0 <= k < |s| && IsNameChar(s[k])
  {
    GreetingPrefixesStartWithNameChar();
    SearchFindsNameChar(s, 0, GreetingPrefixes);
  }

  /** The match of the first pattern starts at the first name character. */
  lemma GreetingMatchAt(s: string, k: nat)
    requires k < |s| && IsNameChar(s[k]) && forall m :: 0 <= m < k ==> !IsNameChar(s[m])
    ensures GreetingMatch(s) == AttemptAt(s, k, GreetingPrefixes)
  {
    GreetingPrefixesStartWithNameChar();
    SearchStartsAt(s, 0, GreetingPrefixes, k);
  }

  /** The second pattern is dead: whenever it would match, the first one
      already has, so the loop never reaches it. */
  lemma WholePatternIsDead(lower: string)
    ensures WholeMatch(lower).Some? ==> GreetingMatch(lower).Some?
    ensures DetectName(lower) == DetectNameWith(lower, [GreetingPattern])
  {
    GreetingMatchFound(lower);
    if WholeMatch(lower).Some? {
      assert lower[0] in lower;
    }
    if GreetingMatch(lower).None? {
      assert NamePatterns[1..] == [WholePattern];
      assert DetectNameWith(lower, [WholePattern]) == DetectNameWith(lower, []);
      assert DetectNameWith(lower, [GreetingPattern]) == DetectNameWith(lower, []);
    }
  }

  // ---------------------------------------------------------------------
  // Title-casing

  lemma {:induction false} JoinSplit(s: string, sep: char)
    ensures Join(Split(s, sep), sep) == s
  {
    if s != [] {
      JoinSplit(s[1..], sep);
      if s[0] != sep {
        var rest := Split(s[1..], sep);
        if |rest| > 1 {
          var parts := Split(s, sep);
          assert parts[1..] == rest[1..];
        }
      }
    }
  }

  /** A word without spaces is capitalized by [CapitalizeWord]. */
  lemma CapitalizeWordCapitalizes(w: string)
    requires ' ' !in w
    ensures IsCapitalizationOf(CapitalizeWord(w), w)
  {
    var c := CapitalizeWord(w);
    forall k | 0 <= k < |w| ensures c[k] == CapitalizedAt(w, k) {
      if k > 0 {
        assert w[k - 1] in w;
        assert c[k] == ToLower(w[1..])[k - 1] == LowerChar(w[k]);
      }
    }
  }

  /** Capitalizations of a word and of a text joined by a space capitalize
      the joined text. */
  lemma CapitalizationConcat(w: string, cw: string, t: string, ct: string)
    requires ' ' !in w && IsCapitalizationOf(cw, w) && IsCapitalizationOf(ct, t)
    ensures IsCapitalizationOf(cw + [' '] + ct, w + [' '] + t)
  {
    var J := w + [' '] + t;
    var C := cw + [' '] + ct;
    forall k | 0 <= k < |J| ensures C[k] == CapitalizedAt(J, k) {
      if k < |w| {
        if k > 0 { assert J[k - 1] == w[k - 1]; }
      } else if k == |w| {
        if k > 0 { assert J[k - 1] == w[k - 1] && w[k - 1] in w; }
        CaseMappingFacts(' ');
      } else {
        var k' := k - |w| - 1;
        assert C[k] == ct[k'];
        assert J[k] == t[k'];
        if k' > 0 { assert J[k - 1] == t[k' - 1]; }
      }
    }
  }

  lemma {:induction false} CapitalizeJoin(ws: seq<string>)
    requires forall w :: w in ws ==> ' ' !in w
    ensures IsCapitalizationOf(Join(CapitalizeWords(ws), ' '), Join(ws, ' '))
  {
    if ws == [] {
    } else if |ws| == 1 {
      assert ws[0] in ws;
      CapitalizeWordCapitalizes(ws[0]);
    } else {
      assert ws[0] in ws;
      var w := ws[0];
      var rest := ws[1..];
      assert forall v :: v in rest ==> v in ws;
      CapitalizeJoin(rest);
      CapitalizeWordCapitalizes(w);
      assert CapitalizeWords(ws)[1..] == CapitalizeWords(rest);
      assert Join(ws, ' ') == w + [' '] + Join(rest, ' ');
      assert Join(CapitalizeWords(ws), ' ') == CapitalizeWord(w) + [' '] + Join(CapitalizeWords(rest), ' ');
      CapitalizationConcat(w, CapitalizeWord(w), Join(rest, ' '), Join(CapitalizeWords(rest), ' '));
    }
  }

  /** Title-casing a trimmed string capitalizes it character by character. */
  lemma TitleCaseCapitalizes(s: string)
    requires IsTrimmed(s)
    ensures IsCapitalizationOf(TitleCase(s), s)
  {
    var parts := Split(s, ' ');
    JoinSplit(s, ' ');
    CapitalizeJoin(parts);
    var c := Join(CapitalizeWords(parts), ' ');
    if s != [] {
      CaseMappingFacts(s[0]);
      CaseMappingFacts(s[|s| - 1]);
      if |s| > 1 { CaseMappingFacts(s[|s| - 2]); }
      assert IsTrimmed(c);
    }
  }

  /** Title-casing keeps the length of a trimmed string. */
  lemma TitleCaseLength(s: string)
    requires IsTrimmed(s)
    ensures |TitleCase(s)| == |s|
  {
    TitleCaseCapitalizes(s);
  }

  /** Title-casing a trimmed string twice is title-casing it once. */
  lemma TitleCaseIdempotent(s: string)
    requires IsTrimmed(s)
    ensures TitleCase(TitleCase(s)) == TitleCase(s)
  {
    var t := TitleCase(s);
    TitleCaseCapitalizes(s);
    TitleCaseCapitalizes(t);
    CapitalizationIdempotent(s, t, TitleCase(t));
  }

  /** Capitalizing a capitalization changes nothing. */
  lemma CapitalizationIdempotent(s: string, t: string, u: string)
    requires IsCapitalizationOf(t, s) && IsCapitalizationOf(u, t)
    ensures u == t
  {
    forall k | 0 <= k < |s| ensures u[k] == t[k] {
      CaseMappingFacts(s[k]);
      if k > 0 { CaseMappingFacts(s[k - 1]); }
    }
  }

  // ---------------------------------------------------------------------
  // The extracted name

  lemma NameCharCase(c: char)
    requires IsNameChar(c)
    ensures !('0' <= UpperChar(c) <= '9') && UpperChar(c) as int < 0x1_0000
    ensures !('0' <= LowerChar(c) <= '9') && LowerChar(c) as int < 0x1_0000
  {
  }

  /** Title-casing a detected text: trimmed, as long as the text, free of
      digits, inside the Basic Multilingual Plane, and a fixed point of
      title-casing. */
  lemma TitledNameShape(d: string)
    requires IsTrimmed(d) && IsNameText(d)
    ensures var n := TitleCase(d);
      IsTrimmed(n) && IsCapitalizationOf(n, d) && !HasDigit(n) && Utf16Length(n) == |n| && TitleCase(n) == n
  {
    var n := TitleCase(d);
    TitleCaseCapitalizes(d);
    CapitalizedNameText(n, d);
    Utf16LengthOfBmp(n);
    TitleCaseIdempotent(d);
  }

  /** A capitalization of a text in the name class holds no digit and
      nothing outside the Basic Multilingual Plane. */
  lemma CapitalizedNameText(n: string, d: string)
    requires IsNameText(d) && IsCapitalizationOf(n, d)
    ensures !HasDigit(n) && InBmp(n)
  {
    forall k | 0 <= k < |n| ensures !('0' <= n[k] <= '9') && n[k] as int < 0x1_0000 {
      assert d[k] in d;
      NameCharCase(d[k]);
    }
  }

  /** The accepted name is the title-cased detection, with the shape of
      [TitledNameShape]. */
  lemma ExtractedNameShape(message: string)
    ensures var d := DetectName(ToLower(message)); var n := ExtractName(message);
      IsTrimmed(n) && IsCapitalizationOf(n, d) && !HasDigit(n) && Utf16Length(n) == |n| && TitleCase(n) == n
  {
    var d := DetectName(ToLower(message));
    TitledNameShape(d);
    assert ExtractName(message) == TitleCase(d);
  }

  /** The digit test never fires: a name is rejected exactly when it is shorter than two. */
  lemma NameRejectedIffShort(message: string)
    ensures NameRejected(ExtractName(message)) <==> |ExtractName(message)| < 2
  {
    ExtractedNameShape(message);
  }

  // ---------------------------------------------------------------------
  // An example: "meu nome é joão"

  lemma {:induction false} CleanupAltMissesFirstChar(p: string, alts: seq<string>)
    requires IsNameText(p) && p != []
    requires forall a :: a in alts ==> |a| > 0 && a[0] != p[0]
    ensures CleanupAlt(p, alts) == None
  {
    if alts != [] {
      assert alts[0] in alts;
      CleanupAltMissesFirstChar(p, alts[1..]);
    }
  }

  lemma NotOccursAtIndex(s: string, k: string, i: nat, j: nat)
    requires j < |k| && i + |k| <= |s| && s[i + j] != k[j]
    ensures !OccursAt(s, k, i)
  {
    assert s[i..i + |k|][j] == s[i + j];
  }

  lemma JoaoGreeting(lower: string)
    requires lower == "meu nome é joão"
    ensures GreetingMatch(lower) == Some(lower[11..])
  {
    assert IsNameChar(lower[0]);
    GreetingMatchAt(lower, 0);
    var alts := GreetingPrefixes;
    NotOccursAtIndex(lower, alts[0], 0, 0); NotOccursAtIndex(lower, alts[1], 0, 0); NotOccursAtIndex(lower, alts[2], 0, 0);
    assert lower[0..10] == alts[3]; assert OccursAt(lower, alts[3], 0);
    assert WsEnd(lower, 11) == 11;
    assert RunEnd(lower, 15) == 15;
    assert RunEnd(lower, 11) == 15;
    assert WsEnd(lower, 10) == 11; assert !IsPunct(lower[11]) && IsNameChar(lower[11]); assert RunAt(lower, 11) == lower[11..];
    assert AfterPrefix(lower, 10) == Some(lower[11..]);
    assert |alts[3]| == 10;
    assert AltMatch(lower, 0, alts[3..]) == Some(lower[11..]);
    assert AltMatch(lower, 0, alts[2..]) == Some(lower[11..]) by { assert alts[2..][1..] == alts[3..]; }
    assert AltMatch(lower, 0, alts[1..]) == Some(lower[11..]) by { assert alts[1..][1..] == alts[2..]; }
    assert AltMatch(lower, 0, alts) == Some(lower[11..]);
    assert AttemptAt(lower, 0, alts) == Some(lower[11..]);
  }

  lemma JoaoDetected(lower: string)
    requires lower == "meu nome é joão"
    ensures DetectName(lower) == lower[11..]
  {
    JoaoGreeting(lower);
    var p := lower[11..];
    assert IsTrimmed(p);
    assert p[0] == 'j';
    CleanupAltMissesFirstChar(p, CleanupPrefixes);
    assert Refine(p) == p;
  }

  lemma LowerJoao(message: string)
    requires message == "meu nome é joão"
    ensures ToLower(message) == message
  {
    var lower := ToLower(message);
    forall i | 0 <= i < |message| ensures lower[i] == message[i] {
      assert IsNameChar(message[i]);
    }
  }

  lemma CapitalizedJoao(d: string, t: string)
    requires |d| == 4 && d[0] == 'j' && d[1] == 'o' && d[2] == 'ã' && d[3] == 'o'
    requires IsCapitalizationOf(t, d)
    ensures t == "João"
  {
    assert t[0] == CapitalizedAt(d, 0) == 'J';
    assert t[1] == CapitalizedAt(d, 1) == 'o';
    assert t[2] == CapitalizedAt(d, 2) == 'ã';
    assert t[3] == CapitalizedAt(d, 3) == 'o';
  }

  lemma JoaoExtracted(message: string)
    requires message == "meu nome é joão"
    ensures ExtractName(message) == "João"
  {
    LowerJoao(message);
    JoaoDetected(message);
    var d := message[11..];
    assert |d| == 4 && d[0] == 'j' && d[1] == 'o' && d[2] == 'ã' && d[3] == 'o';
    assert IsTrimmed(d);
    TitleCaseCapitalizes(d);
    CapitalizedJoao(d, TitleCase(d));
  }
}
