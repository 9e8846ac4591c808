/** The shared string helpers: proper-casing names, the keystroke filters of
    numeric and alphabetic inputs, and the day-first date used in tables and
    in the day-requirement report. */
module TextUtils {
  import opened Text
  import opened Seqs

  /** `word.charAt(0).toUpperCase() + word.slice(1)` */
  function Capitalize(w: string): string {
    if w == [] then [] else [ToUpper(w[0])] + w[1..]
  }

  /** toProperCase: lower-case everything, then capitalize each word between
      single spaces. */
  function ToProperCase(s: string): string {
    if s == [] then s else Join(Map(Split(LowerStr(s), ' '), Capitalize), ' ')
  }

  /** A word starts at position 0 and right after every space. */
  predicate WordStart(s: string, i: int)
    requires 0 <= i < |s|
  {
    i == 0 || s[i - 1] == ' '
  }

  /** The reference for proper case: upper case at word starts, the rest as
      it was. */
  function UpperAtWordStarts(t: string): (r: string)
    ensures |r| == |t|
    ensures forall i :: 0 <= i < |t| ==> r[i] == if WordStart(t, i) then ToUpper(t[i]) else t[i]
  {
    seq(|t|, i requires 0 <= i < |t| => if WordStart(t, i) then ToUpper(t[i]) else t[i])
  }

  lemma UpperAtWordStartsCons(w: string, t: string)
    requires ' ' !in w
    ensures UpperAtWordStarts(w + " " + t) == Capitalize(w) + " " + UpperAtWordStarts(t)
  {
    var s := w + " " + t;
    var lhs := UpperAtWordStarts(s);
    var rhs := Capitalize(w) + " " + UpperAtWordStarts(t);
    assert |rhs| == |lhs|;
    forall i | 0 <= i < |s| ensures lhs[i] == rhs[i] {
      if i < |w| {
        if i > 0 { assert s[i - 1] == w[i - 1]; assert w[i - 1] in w; }
      } else if i > |w| {
        var j := i - |w| - 1;
        assert s[i] == t[j];
        if j > 0 { assert s[i - 1] == t[j - 1]; }
      }
    }
  }

  lemma UpperAtWordStartsWord(w: string)
    requires ' ' !in w
    ensures UpperAtWordStarts(w) == Capitalize(w)
  {
    forall i | 0 < i < |w| ensures !WordStart(w, i) {
      assert w[i - 1] in w;
    }
  }

  lemma {:induction false} JoinCapitalized(parts: seq<string>)
    requires |parts| >= 1
    requires forall k :: 0 <= k < |parts| ==> ' ' !in parts[k]
    ensures Join(Map(parts, Capitalize), ' ') == UpperAtWordStarts(Join(parts, ' '))
  {
    if |parts| == 1 {
      UpperAtWordStartsWord(parts[0]);
    } else {
      var caps := Map(parts, Capitalize);
      assert caps[1..] == Map(parts[1..], Capitalize);
      JoinCapitalized(parts[1..]);
      UpperAtWordStartsCons(parts[0], Join(parts[1..], ' '));
    }
  }

  /** Proper case, character by character: each character keeps its place,
      is upper case at the start of a word and lower case elsewhere. */
  lemma ProperCaseAt(s: string)
    ensures |ToProperCase(s)| == |s|
    ensures forall i :: 0 <= i < |s| ==>
      ToProperCase(s)[i] == if WordStart(s, i) then ToUpper(s[i]) else ToLower(s[i])
  {
    if s != [] {
      var t := LowerStr(s);
      JoinCapitalized(Split(t, ' '));
      JoinSplit(t, ' ');
      assert ToProperCase(s) == UpperAtWordStarts(t);
      forall i | 0 <= i < |s|
        ensures ToProperCase(s)[i] == if WordStart(s, i) then ToUpper(s[i]) else ToLower(s[i])
      {
        if i > 0 { assert t[i - 1] == ' ' <==> s[i - 1] == ' '; }
      }
    }
  }

  /** Proper-casing twice is proper-casing once. */
  lemma ProperCaseIdempotent(s: string)
    ensures ToProperCase(ToProperCase(s)) == ToProperCase(s)
  {
    var r := ToProperCase(s);
    ProperCaseAt(s);
    ProperCaseAt(r);
    forall i | 0 <= i < |s| ensures ToProperCase(r)[i] == r[i] {
      if i > 0 { assert r[i - 1] == ' ' <==> s[i - 1] == ' '; }
      assert WordStart(r, i) == WordStart(s, i);
    }
  }

  /** The three parts of a "yyyy-MM-dd" date in the opposite order
      ("dd-MM-yyyy"); any text that is not three parts is returned as it is. */
  function DayFirst(d: string): string {
    var parts := Split(d, '-');
    if |parts| == 3 then parts[2] + "-" + parts[1] + "-" + parts[0] else d
  }

  lemma DayFirstOfParts(y: string, m: string, d: string)
    requires '-' !in y && '-' !in m && '-' !in d
    ensures DayFirst(y + "-" + m + "-" + d) == d + "-" + m + "-" + y
  {
    JoinThree(y, m, d);
    SplitJoin([y, m, d], '-');
  }

  lemma JoinThree(a: string, b: string, c: string)
    ensures Join([a, b, c], '-') == a + "-" + b + "-" + c
  {
    assert [a, b, c][1..] == [b, c];
    assert [b, c][1..] == [c];
    assert Join([b, c], '-') == b + "-" + c;
  }

  /** Turning a three-part date around twice gives it back. */
  lemma DayFirstInvolution(s: string)
    requires |Split(s, '-')| == 3
    ensures DayFirst(DayFirst(s)) == s
  {
    var p := Split(s, '-');
    assert p[0] in p && p[1] in p && p[2] in p;
    DayFirstOfParts(p[2], p[1], p[0]);
    JoinSplit(s, '-');
    assert p == [p[0], p[1], p[2]];
    JoinThree(p[0], p[1], p[2]);
  }

  /** formatDateForTable: "-" for no date; the day-first form of the date
      part when it has three parts; the text unchanged otherwise. */
  function FormatDateForTable(s: string): string {
    if s == [] then "-"
    else if |Split(DatePart(s), '-')| == 3 then DayFirst(DatePart(s))
    else s
  }

  /** A stored date-time "yyyy-MM-ddThh:mm:ss" or date "yyyy-MM-dd" shows as
      "dd-MM-yyyy". */
  lemma FormatStoredDate(y: string, m: string, d: string, time: string)
    requires '-' !in y && '-' !in m && '-' !in d
    requires 'T' !in y && 'T' !in m && 'T' !in d
    ensures FormatDateForTable(y + "-" + m + "-" + d + "T" + time) == d + "-" + m + "-" + y
    ensures FormatDateForTable(y + "-" + m + "-" + d) == d + "-" + m + "-" + y
  {
    var w := y + "-" + m + "-" + d;
    DatePartOfStamp(w, time);
    JoinThree(y, m, d);
    SplitJoin([y, m, d], '-');
    DayFirstOfParts(y, m, d);
  }

  /** The parts of a three-part text. */
  lemma ThreeParts(s: string) returns (a: string, b: string, c: string)
    requires |Split(s, '-')| == 3
    ensures Split(s, '-') == [a, b, c] && s == a + "-" + b + "-" + c
    ensures '-' !in a && '-' !in b && '-' !in c
  {
    var p := Split(s, '-');
    a, b, c := p[0], p[1], p[2];
    assert p == [a, b, c];
    JoinSplit(s, '-');
    JoinThree(a, b, c);
  }

  lemma NoCharInParts(a: string, b: string, c: string, s: string)
    requires s == a + "-" + b + "-" + c && 'T' !in s
    ensures 'T' !in a && 'T' !in b && 'T' !in c
  {
    forall i | 0 <= i < |a| ensures a[i] != 'T' { assert s[i] == a[i]; }
    forall i | 0 <= i < |b| ensures b[i] != 'T' { assert s[|a| + 1 + i] == b[i]; }
    forall i | 0 <= i < |c| ensures c[i] != 'T' { assert s[|a| + |b| + 2 + i] == c[i]; }
  }

  /** A table date shown again through the table format gives back its date
      part: day-first twice is the identity. */
  lemma FormatDateForTableInvolution(s: string)
    requires |Split(DatePart(s), '-')| == 3
    ensures FormatDateForTable(FormatDateForTable(s)) == DatePart(s)
  {
    var dp := DatePart(s);
    var a, b, c := ThreeParts(dp);
    NoCharInParts(a, b, c, dp);
    DayFirstOfParts(a, b, c);
    assert FormatDateForTable(s) == c + "-" + b + "-" + a;
    FormatStoredDate(c, b, a, "");
    DayFirstOfParts(c, b, a);
  }

  /** Keys that both keystroke filters always let through. */
  const NavigationKeys: seq<string> := ["Backspace", "Tab", "ArrowLeft", "ArrowRight", "Delete", "Home", "End"]

  /** numericOnly lets `key` through into an input whose text is `value`. */
  predicate NumericOnlyAllows(key: string, value: string) {
    key in NavigationKeys || (key == "." && '.' !in value) || (|key| == 1 && IsDigit(key[0]))
  }

  /** alphabetOnly lets `key` through. */
  predicate AlphabetOnlyAllows(key: string) {
    key in NavigationKeys || (|key| == 1 && (IsLetter(key[0]) || key[0] == ' '))
  }

  /** The text after a character key replaces the selection [start, end). */
  function Typed(value: string, start: nat, end: nat, key: string): string
    requires start <= end <= |value|
  {
    value[..start] + key + value[end..]
  }

  /** Digits with at most one decimal point. */
  predicate NumericText(v: string) {
    (forall i :: 0 <= i < |v| ==> IsDigit(v[i]) || v[i] == '.') && multiset(v)['.'] <= 1
  }

  predicate AlphabeticText(v: string) {
    forall i :: 0 <= i < |v| ==> IsLetter(v[i]) || v[i] == ' '
  }

  /** A numeric field stays numeric under every keystroke numericOnly lets
      through as a character. */
  lemma NumericOnlyKeepsNumeric(value: string, start: nat, end: nat, key: string)
    requires start <= end <= |value| && NumericText(value)
    requires NumericOnlyAllows(key, value) && key !in NavigationKeys
    ensures NumericText(Typed(value, start, end, key))
  {
    TypedPoints(value, start, end, key);
    var r := Typed(value, start, end, key);
    forall i | 0 <= i < |r| ensures IsDigit(r[i]) || r[i] == '.' {
      if i < start {
        assert r[i] == value[i];
      } else if i >= start + |key| {
        assert r[i] == value[i - start - |key| + end];
      }
    }
  }

  /** Typing adds the key's points and removes at most the selection's. */
  lemma TypedPoints(value: string, start: nat, end: nat, key: string)
    requires start <= end <= |value|
    ensures multiset(Typed(value, start, end, key))['.'] <= multiset(value)['.'] + multiset(key)['.']
  {
    assert value == value[..start] + value[start..end] + value[end..];
    assert multiset(Typed(value, start, end, key)) == multiset(value[..start]) + multiset(key) + multiset(value[end..]);
  }

  /** An alphabetic field stays letters and spaces under every keystroke
      alphabetOnly lets through as a character. */
  lemma AlphabetOnlyKeepsAlphabetic(value: string, start: nat, end: nat, key: string)
    requires start <= end <= |value| && AlphabeticText(value)
    requires AlphabetOnlyAllows(key) && key !in NavigationKeys
    ensures AlphabeticText(Typed(value, start, end, key))
  {
    var r := Typed(value, start, end, key);
    forall i | 0 <= i < |r| ensures IsLetter(r[i]) || r[i] == ' ' {
      if i < start {
        assert r[i] == value[i];
      } else if i >= start + |key| {
        assert r[i] == value[i - start - |key| + end];
      }
    }
  }
}
