/** Turning any text into a legal Kubernetes label value. */
module Labels {

  const MAX_LENGTH: nat := 63

  predicate IsAlphanumeric(c: char) {
    'a' <= c <= 'z' || 'A' <= c <= 'Z' || '0' <= c <= '9'
  }

  predicate IsSpecial(c: char) {
    c == '.' || c == '-' || c == '_'
  }

  predicate IsManaged(c: char) {
    c == ':' || c == '/' || c == ' ' || c == '[' || c == ']'
  }

  /** The API server's rule for label values. */
  predicate IsLabelValue(s: string) {
    && |s| <= MAX_LENGTH
    && (forall c :: c in s ==> IsAlphanumeric(c) || IsSpecial(c))
    && (s == "" || (IsAlphanumeric(s[0]) && IsAlphanumeric(s[|s| - 1])))
  }

  function Sanitize(s: string): string {
    if s == "" then ""
    else if IsSpecial(s[0]) || IsAlphanumeric(s[0]) || IsManaged(s[0]) then [s[0]] + Sanitize(s[1..])
    else Sanitize(s[1..])
  }

  method SanitizeLabelValue(s: string) returns (t: string)
    ensures t == Sanitize(s)
  {
    t := "";
    var i := 0;
    assert s[0..] == s;
    while i < |s|
      invariant 0 <= i <= |s| && t + Sanitize(s[i..]) == Sanitize(s)
    {
      assert s[i..][1..] == s[i + 1..];
      if IsSpecial(s[i]) || IsAlphanumeric(s[i]) || IsManaged(s[i]) {
        t := t + [s[i]];
      }
      i := i + 1;
    }
  }

  function ReplaceOne(c: char): string {
    if c == ':' || c == '/' then "-"
    else if c == ' ' then "_"
    else if c == '[' || c == ']' then "__"
    else [c]
  }

  function Replace(s: string): string {
    if s == "" then "" else ReplaceOne(s[0]) + Replace(s[1..])
  }

  function TrimStart(s: string): string {
    if s != "" && IsSpecial(s[0]) then TrimStart(s[1..]) else s
  }

  function TrimEnd(s: string): string {
    if s != "" && IsSpecial(s[|s| - 1]) then TrimEnd(s[..|s| - 1]) else s
  }

  /** The end of the text is kept. */
  function CutToMaxLength(s: string): string {
    if |s| > MAX_LENGTH then s[|s| - MAX_LENGTH..] else s
  }

  function Trimmed(s: string): string {
    TrimStart(CutToMaxLength(TrimEnd(TrimStart(s))))
  }

  function CleanValue(s: string): string {
    if IsLabelValue(s) then s
    else Trimmed(Replace(Sanitize(s)))
  }

  // ---------- the result ----------

  predicate HasAlphanumeric(s: string) {
    exists c :: c in s && IsAlphanumeric(c)
  }

  ghost predicate LegalCharacters(s: string) {
    forall c :: c in s ==> IsAlphanumeric(c) || IsSpecial(c)
  }

  lemma {:induction false} ReplacedIsLegal(s: string)
    ensures LegalCharacters(Replace(Sanitize(s)))
    ensures HasAlphanumeric(Replace(Sanitize(s))) <==> HasAlphanumeric(s)
  {
    if s != "" {
      assert s == [s[0]] + s[1..];
      ReplacedIsLegal(s[1..]);
      var rest := Replace(Sanitize(s[1..]));
      if IsSpecial(s[0]) || IsAlphanumeric(s[0]) || IsManaged(s[0]) {
        assert Sanitize(s)[1..] == Sanitize(s[1..]);
        assert Replace(Sanitize(s)) == ReplaceOne(s[0]) + rest;
        assert IsAlphanumeric(s[0]) ==> s[0] in ReplaceOne(s[0]);
        assert HasAlphanumeric(rest) ==> HasAlphanumeric(ReplaceOne(s[0]) + rest) by {
          if HasAlphanumeric(rest) {
            var c :| c in rest && IsAlphanumeric(c);
            assert c in ReplaceOne(s[0]) + rest;
          }
        }
      }
    }
  }

  lemma {:induction false} TrimStartResult(s: string)
    requires LegalCharacters(s)
    ensures var t := TrimStart(s);
      && LegalCharacters(t) && |t| <= |s| && (t != "" ==> IsAlphanumeric(t[0]) && t[|t| - 1] == s[|s| - 1])
      && (t == "" <==> !HasAlphanumeric(s))
  {
    if s != "" {
      assert s == [s[0]] + s[1..];
      if IsSpecial(s[0]) {
        TrimStartResult(s[1..]);
      } else {
        assert s[0] in s;
      }
    }
  }

  lemma {:induction false} TrimEndResult(s: string)
    requires LegalCharacters(s)
    ensures var t := TrimEnd(s);
      && LegalCharacters(t) && |t| <= |s| && (t != "" ==> IsAlphanumeric(t[|t| - 1]) && t[0] == s[0])
      && (t == "" <==> !HasAlphanumeric(s))
  {
    if s != "" {
      var last := s[|s| - 1];
      assert s == s[..|s| - 1] + [last];
      if IsSpecial(last) {
        TrimEndResult(s[..|s| - 1]);
      } else {
        assert last in s;
      }
    }
  }

  lemma CutIsLegal(s: string)
    requires LegalCharacters(s) && (s != "" ==> IsAlphanumeric(s[|s| - 1]))
    ensures var t := CutToMaxLength(s);
      && LegalCharacters(t) && |t| <= MAX_LENGTH && (t == "" <==> s == "") && (t != "" ==> IsAlphanumeric(t[|t| - 1]))
  {
  }

  lemma TrimmedIsLegal(a: string)
    requires LegalCharacters(a)
    ensures IsLabelValue(Trimmed(a)) && (Trimmed(a) == "" <==> !HasAlphanumeric(a))
  {
    var b := TrimStart(a);
    var c := TrimEnd(b);
    var d := CutToMaxLength(c);
    TrimStartResult(a);
    assert b != "" ==> b[0] in b;
    TrimEndResult(b);
    CutIsLegal(c);
    assert d != "" ==> d[|d| - 1] in d;
    TrimStartResult(d);
  }

  lemma CleanedIsLegal(s: string)
    ensures IsLabelValue(CleanValue(s))
    ensures CleanValue(s) == "" <==> !HasAlphanumeric(s)
  {
    if IsLabelValue(s) {
      assert s != "" ==> s[0] in s;
    } else {
      ReplacedIsLegal(s);
      TrimmedIsLegal(Replace(Sanitize(s)));
    }
  }

  /** The result is always a legal label value; it is empty if and only if the text has
      no letter or digit; and cleaning it again changes nothing. */
  lemma CleanValueIsLegal(s: string)
    ensures IsLabelValue(CleanValue(s))
    ensures CleanValue(s) == "" <==> !HasAlphanumeric(s)
    ensures CleanValue(CleanValue(s)) == CleanValue(s)
  {
    CleanedIsLegal(s);
  }

  lemma {:induction false} ReplacedBoth(a: string, b: string)
    ensures Replace(Sanitize(a + b)) == Replace(Sanitize(a)) + Replace(Sanitize(b))
  {
    if a == "" {
      assert a + b == b;
    } else {
      assert (a + b)[0] == a[0] && (a + b)[1..] == a[1..] + b;
      ReplacedBoth(a[1..], b);
      if IsSpecial(a[0]) || IsAlphanumeric(a[0]) || IsManaged(a[0]) {
        assert Sanitize(a)[1..] == Sanitize(a[1..]) && Sanitize(a + b)[1..] == Sanitize(a[1..] + b);
        assert ReplaceOne(a[0]) + (Replace(Sanitize(a[1..])) + Replace(Sanitize(b)))
          == ReplaceOne(a[0]) + Replace(Sanitize(a[1..])) + Replace(Sanitize(b));
      }
    }
  }

  predicate AllAlphanumeric(s: string) {
    forall c :: c in s ==> IsAlphanumeric(c)
  }

  lemma {:induction false} AlphanumericStays(s: string)
    requires AllAlphanumeric(s)
    ensures Replace(Sanitize(s)) == s
  {
    if s != "" {
      assert s[0] in s && s == [s[0]] + s[1..];
      AlphanumericStays(s[1..]);
      assert Sanitize(s)[1..] == Sanitize(s[1..]);
    }
  }

  lemma ReplacedCharacter(c: char)
    requires !IsAlphanumeric(c) && !IsSpecial(c)
    ensures Replace(Sanitize([c])) ==
      if c == ':' || c == '/' then "-" else if c == ' ' then "_" else if c == '[' || c == ']' then "__" else ""
  {
    assert Sanitize([c][1..]) == "" && Replace("") == "";
    if IsManaged(c) {
      assert Sanitize([c]) == [c] && [c][1..] == "";
      assert Replace([c]) == ReplaceOne(c) + "";
    } else {
      assert Sanitize([c]) == "";
    }
  }

  lemma NothingToTrim(s: string)
    requires s != "" && IsAlphanumeric(s[0]) && IsAlphanumeric(s[|s| - 1]) && |s| <= MAX_LENGTH
    ensures Trimmed(s) == s
  {
  }

  lemma IllegalIsCleaned(s: string, c: char)
    requires c in s && !IsAlphanumeric(c) && !IsSpecial(c)
    ensures CleanValue(s) == Trimmed(Replace(Sanitize(s)))
  {
  }

  lemma ReplacedBetween(a: string, c: char, b: string)
    requires AllAlphanumeric(a) && AllAlphanumeric(b)
    ensures Replace(Sanitize(a + [c] + b)) == a + Replace(Sanitize([c])) + b
  {
    ReplacedBoth(a + [c], b);
    ReplacedBoth(a, [c]);
    AlphanumericStays(a);
    AlphanumericStays(b);
  }

  lemma EndsAreAlphanumeric(a: string, x: string, b: string)
    requires AllAlphanumeric(a) && AllAlphanumeric(b) && a != "" && b != ""
    ensures var s := a + x + b; IsAlphanumeric(s[0]) && IsAlphanumeric(s[|s| - 1])
  {
    assert a[0] in a && b[|b| - 1] in b;
  }

  /** What becomes of a character that a label value may not hold, between others that it may:
      a colon or a slash becomes a dash, a space an underscore, a bracket two underscores; any
      other is left out. */
  lemma CleanedCharacter(a: string, c: char, b: string)
    requires AllAlphanumeric(a) && AllAlphanumeric(b) && a != "" && b != "" && |a| + |b| + 2 <= MAX_LENGTH
    requires !IsAlphanumeric(c) && !IsSpecial(c)
    ensures CleanValue(a + [c] + b) ==
      a + (if c == ':' || c == '/' then "-" else if c == ' ' then "_" else if c == '[' || c == ']' then "__" else "") + b
  {
    var s := a + [c] + b;
    ReplacedCharacter(c);
    ReplacedBetween(a, c, b);
    EndsAreAlphanumeric(a, Replace(Sanitize([c])), b);
    assert s[|a|] == c && c in s;
    IllegalIsCleaned(s, c);
    NothingToTrim(Replace(Sanitize(s)));
  }

  lemma LongIsCut(s: string)
    requires |s| > MAX_LENGTH
    requires IsAlphanumeric(s[0]) && IsAlphanumeric(s[|s| - 1]) && IsAlphanumeric(s[|s| - MAX_LENGTH])
    ensures Trimmed(s) == s[|s| - MAX_LENGTH..]
  {
  }

  /** Of a text that is too long the end is kept. */
  lemma LongTextKeepsItsEnd(s: string)
    requires AllAlphanumeric(s) && |s| > MAX_LENGTH
    ensures CleanValue(s) == s[|s| - MAX_LENGTH..]
  {
    assert s[0] in s && s[|s| - 1] in s && s[|s| - MAX_LENGTH] in s;
    AlphanumericStays(s);
    LongIsCut(s);
  }
}
