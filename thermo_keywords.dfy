/** The thermo-keyword parse of `setupLammps`: the `thermo_style` lines of the
    input script are split into tokens, the words `thermo_style` and `custom`
    are removed once each, duplicates are dropped, and every surviving token,
    upper-cased, becomes a key of `sim_info` with an empty history. */
module ThermoKeywords {

  /** Python's `str.isspace()` for one character. */
  predicate IsSpace(c: char)
  {
    || c == ' '
    || ('\t' <= c <= '\r')
    || ('\U{1C}' <= c <= '\U{1F}')
    || c == '\U{85}' || c == '\U{A0}' || c == '\U{1680}'
    || ('\U{2000}' <= c <= '\U{200A}')
    || c == '\U{2028}' || c == '\U{2029}' || c == '\U{202F}'
    || c == '\U{205F}' || c == '\U{3000}'
  }

  /** Python's `str.rstrip()`. */
  function RStrip(s: string): string
    decreases |s|
  {
    if |s| > 0 && IsSpace(s[|s| - 1]) then RStrip(s[..|s| - 1]) else s
  }

  /** RStrip gives the longest prefix that does not end in white space. */
  lemma {:induction false} RStripIsLongestPrefix(s: string)
    ensures |RStrip(s)| <= |s| && RStrip(s) == s[..|RStrip(s)|]
    ensures RStrip(s) == [] || !IsSpace(RStrip(s)[|RStrip(s)| - 1])
    ensures forall i :: |RStrip(s)| <= i < |s| ==> IsSpace(s[i])
    decreases |s|
  {
    if |s| > 0 && IsSpace(s[|s| - 1]) {
      RStripIsLongestPrefix(s[..|s| - 1]);
    }
  }

  /** Python's `str.lstrip()`. */
  function LStrip(s: string): string
    decreases |s|
  {
    if |s| > 0 && IsSpace(s[0]) then LStrip(s[1..]) else s
  }

  /** LStrip gives the longest suffix that does not start with white space. */
  lemma {:induction false} LStripIsLongestSuffix(s: string)
    ensures |LStrip(s)| <= |s| && LStrip(s) == s[|s| - |LStrip(s)|..]
    ensures LStrip(s) == [] || !IsSpace(LStrip(s)[0])
    ensures forall i :: 0 <= i < |s| - |LStrip(s)| ==> IsSpace(s[i])
    decreases |s|
  {
    if |s| > 0 && IsSpace(s[0]) {
      LStripIsLongestSuffix(s[1..]);
    }
  }

  /** Python's `str.strip()`. */
  function Strip(s: string): string
  {
    LStrip(RStrip(s))
  }

  predicate StartsWith(s: string, prefix: string)
  {
    |prefix| <= |s| && s[..|prefix|] == prefix
  }

  /** A stripped word neither starts nor ends with white space, and is what
      remains of the word once white space is cut from both ends. */
  lemma StripTrims(s: string)
    ensures var r := Strip(s);
      && (r == [] || (!IsSpace(r[0]) && !IsSpace(r[|r| - 1])))
      && exists lo, hi :: 0 <= lo <= hi <= |s| && r == s[lo..hi]
           && (forall i :: 0 <= i < lo ==> IsSpace(s[i]))
           && (forall i :: hi <= i < |s| ==> IsSpace(s[i]))
  {
    var rs := RStrip(s);
    RStripIsLongestPrefix(s);
    LStripIsLongestSuffix(rs);
    var r := LStrip(rs);
    var lo, hi := |rs| - |r|, |rs|;
    assert r == s[lo..hi];
  }

  /** The filter of the list comprehension that picks the keyword lines. */
  predicate IsThermoLine(line: string)
  {
    StartsWith(RStrip(line), "thermo_style")
  }

  /** The keyword lines, in script order. */
  function ThermoLines(lines: seq<string>): seq<string>
  {
    if |lines| == 0 then []
    else (if IsThermoLine(lines[0]) then [lines[0]] else []) + ThermoLines(lines[1..])
  }

  /** The keyword lines are exactly the script lines that pass the filter. */
  lemma {:induction false} ThermoLinesFilter(lines: seq<string>, l: string)
    ensures l in ThermoLines(lines) <==> l in lines && IsThermoLine(l)
  {
    if |lines| > 0 {
      ThermoLinesFilter(lines[1..], l);
      assert lines == [lines[0]] + lines[1..];
    }
  }

  /** Python's `s.split(" ")`: cut at every single space, keeping empty pieces. */
  function SplitSpace(s: string): (r: seq<string>)
    ensures |r| >= 1
    ensures forall i :: 0 <= i < |r| ==> ' ' !in r[i]
    decreases |s|
  {
    if |s| == 0 then [""]
    else if s[0] == ' ' then [""] + SplitSpace(s[1..])
    else
      var rest := SplitSpace(s[1..]);
      [[s[0]] + rest[0]] + rest[1..]
  }

  /** Python's `" ".join(parts)`, the partner of SplitSpace. */
  function JoinSpace(parts: seq<string>): string
    requires |parts| >= 1
  {
    if |parts| == 1 then parts[0] else parts[0] + " " + JoinSpace(parts[1..])
  }

  /** Joining the pieces with single spaces gives back the line. */
  lemma {:induction false} JoinSplit(s: string)
    ensures JoinSpace(SplitSpace(s)) == s
    decreases |s|
  {
    if |s| == 0 {
    } else if s[0] == ' ' {
      JoinSplit(s[1..]);
      assert s == [' '] + s[1..];
    } else {
      JoinSplit(s[1..]);
      var rest := SplitSpace(s[1..]);
      if |rest| == 1 {
        assert s == [s[0]] + rest[0];
      } else {
        assert JoinSpace(rest) == rest[0] + " " + JoinSpace(rest[1..]);
        assert [s[0]] + rest[0] + " " + JoinSpace(rest[1..]) == [s[0]] + JoinSpace(rest);
        assert s == [s[0]] + s[1..];
      }
    }
  }

  /** Splitting a join of space-free pieces gives back the pieces. */
  lemma {:induction false} SplitJoin(parts: seq<string>)
    requires |parts| >= 1
    requires forall i :: 0 <= i < |parts| ==> ' ' !in parts[i]
    ensures SplitSpace(JoinSpace(parts)) == parts
    decreases |parts|, |parts[0]|
  {
    if |parts[0]| == 0 {
      if |parts| > 1 {
        SplitJoin(parts[1..]);
        assert JoinSpace(parts) == " " + JoinSpace(parts[1..]);
        assert [""] + parts[1..] == parts;
      }
    } else {
      var tail := [parts[0][1..]] + parts[1..];
      assert ' ' !in tail[0];
      forall i | 0 <= i < |tail| ensures ' ' !in tail[i] {
        if i > 0 { assert tail[i] == parts[i]; }
      }
      SplitJoin(tail);
      if |parts| == 1 {
        assert JoinSpace(parts) == [parts[0][0]] + JoinSpace(tail);
      } else {
        assert tail[1..] == parts[1..];
        assert JoinSpace(parts) == [parts[0][0]] + JoinSpace(tail);
      }
      var j := JoinSpace(parts);
      assert j[0] == parts[0][0] && j[1..] == JoinSpace(tail);
      assert parts[0] == [parts[0][0]] + tail[0];
      assert [[parts[0][0]] + tail[0]] + tail[1..] == parts;
    }
  }

  /** `word.strip()` for every word of a split line, in order. */
  function StripAll(parts: seq<string>): seq<string>
  {
    seq(|parts|, i requires 0 <= i < |parts| => Strip(parts[i]))
  }

  /** The tokens one keyword line contributes. */
  function LineTokens(line: string): seq<string>
  {
    StripAll(SplitSpace(line))
  }

  /** The tokens of a list of keyword lines, line after line. */
  function TokensOf(keywordLines: seq<string>): seq<string>
  {
    if |keywordLines| == 0 then []
    else TokensOf(keywordLines[..|keywordLines| - 1]) + LineTokens(keywordLines[|keywordLines| - 1])
  }

  /** The `keywords` list after the two nested loops. */
  function Tokens(lines: seq<string>): seq<string>
  {
    TokensOf(ThermoLines(lines))
  }

  /** A token of one line is a space-separated word of it, stripped. */
  lemma LineTokenOrigin(line: string, t: string)
    ensures t in LineTokens(line) <==> exists w :: w in SplitSpace(line) && t == Strip(w)
  {
    var parts := SplitSpace(line);
    if t in LineTokens(line) {
      var i :| 0 <= i < |parts| && LineTokens(line)[i] == t;
      assert parts[i] in parts;
    }
    if exists w :: w in parts && t == Strip(w) {
      var w :| w in parts && t == Strip(w);
      var i :| 0 <= i < |parts| && parts[i] == w;
      assert LineTokens(line)[i] == t;
    }
  }

  /** A token of a list of keyword lines is a token of one of them. */
  lemma {:induction false} TokensOfOrigin(keywordLines: seq<string>, t: string)
    ensures t in TokensOf(keywordLines) <==> exists l :: l in keywordLines && t in LineTokens(l)
    decreases |keywordLines|
  {
    if |keywordLines| > 0 {
      var init := keywordLines[..|keywordLines| - 1];
      var last := keywordLines[|keywordLines| - 1];
      TokensOfOrigin(init, t);
      assert keywordLines == init + [last];
      if exists l :: l in keywordLines && t in LineTokens(l) {
        var l :| l in keywordLines && t in LineTokens(l);
        if l != last {
          assert l in init;
        }
      }
    }
  }

  /** Only lines whose right-stripped text starts with `thermo_style`
      contribute tokens (each token being a stripped word, LineTokenOrigin). */
  lemma TokenOrigin(lines: seq<string>, t: string)
    ensures t in Tokens(lines) <==> exists l :: l in lines && IsThermoLine(l) && t in LineTokens(l)
  {
    TokensOfOrigin(ThermoLines(lines), t);
    forall l ensures l in ThermoLines(lines) <==> l in lines && IsThermoLine(l) {
      ThermoLinesFilter(lines, l);
    }
  }

  /** Python's `list.remove(x)`: drop the first occurrence of `x`. */
  function RemoveFirst(s: seq<string>, x: string): (r: seq<string>)
    requires x in s
    ensures |r| == |s| - 1
  {
    assert s == [s[0]] + s[1..];
    if s[0] == x then s[1..] else [s[0]] + RemoveFirst(s[1..], x)
  }

  /** The position of the first occurrence of `x`. */
  function FirstIndex(s: seq<string>, x: string): (i: nat)
    requires x in s
    ensures i < |s| && s[i] == x && x !in s[..i]
  {
    if s[0] == x then 0
    else
      assert s == [s[0]] + s[1..];
      var j := FirstIndex(s[1..], x);
      assert s[..j + 1] == [s[0]] + s[1..][..j];
      j + 1
  }

  /** RemoveFirst cuts out exactly the first occurrence and keeps the order of the rest. */
  lemma {:induction false} RemoveFirstIsFirst(s: seq<string>, x: string)
    requires x in s
    ensures RemoveFirst(s, x) == s[..FirstIndex(s, x)] + s[FirstIndex(s, x) + 1..]
  {
    if s[0] != x {
      assert s == [s[0]] + s[1..];
      RemoveFirstIsFirst(s[1..], x);
      var i := FirstIndex(s[1..], x);
      assert s[..i + 1] == [s[0]] + s[1..][..i];
      assert s[i + 2..] == s[1..][i + 1..];
    }
  }

  /** Removing the first `x` lowers the count of `x` by one and no other count. */
  lemma RemoveFirstCount(s: seq<string>, x: string, w: string)
    requires x in s
    ensures multiset(RemoveFirst(s, x))[w] == multiset(s)[w] - (if w == x then 1 else 0)
  {
    RemoveFirstIsFirst(s, x);
    var i := FirstIndex(s, x);
    var pre, post := s[..i], s[i + 1..];
    assert s == pre + [x] + post;
    assert multiset(s) == multiset(pre) + multiset{x} + multiset(post);
    assert multiset(RemoveFirst(s, x)) == multiset(pre) + multiset(post);
  }

  /** The words removed once each before duplicates are dropped. */
  const BadKeywords: seq<string> := ["thermo_style", "custom"]

  /** `s` with the first occurrence of each word of `bad` removed, word by word
      in the order of `bad`; a word that is absent removes nothing. */
  function RemoveEach(s: seq<string>, bad: seq<string>): seq<string>
  {
    if |bad| == 0 then s
    else
      var before := RemoveEach(s, bad[..|bad| - 1]);
      var w := bad[|bad| - 1];
      if w in before then RemoveFirst(before, w) else before
  }

  /** The keyword list after the removals, before `list(set(...))`. */
  function Surviving(lines: seq<string>): seq<string>
  {
    RemoveEach(Tokens(lines), BadKeywords)
  }

  /** Python's `str.upper()` on one character (ASCII letters only). */
  function UpperChar(c: char): char
  {
    if 'a' <= c <= 'z' then (c as int - 32) as char else c
  }

  /** Python's `str.upper()`, ASCII letters only. */
  function Upper(s: string): (r: string)
    ensures |r| == |s|
    ensures forall i :: 0 <= i < |r| ==> !('a' <= r[i] <= 'z')
  {
    seq(|s|, i requires 0 <= i < |s| => UpperChar(s[i]))
  }

  /** Upper-casing twice is upper-casing once. */
  lemma {:induction false} UpperIdempotent(s: string)
    ensures Upper(Upper(s)) == Upper(s)
  {
    var u := Upper(s);
    assert |Upper(u)| == |u|;
    forall i | 0 <= i < |u| ensures Upper(u)[i] == u[i] {
    }
  }

  /** The keys of `sim_info` that the parse produces. */
  function KeySet(lines: seq<string>): set<string>
  {
    set t | t in Surviving(lines) :: Upper(t)
  }

  /** Every key is the upper-case form of a surviving token, every surviving
      token yields a key, and no key holds a lower-case ASCII letter. */
  lemma KeysAreUpperTokens(lines: seq<string>)
    ensures forall t :: t in Surviving(lines) ==> Upper(t) in KeySet(lines)
    ensures forall k :: k in KeySet(lines) ==> exists t :: t in Surviving(lines) && Upper(t) == k
    ensures forall k :: k in KeySet(lines) ==> Upper(k) == k
  {
    forall k | k in KeySet(lines) ensures Upper(k) == k {
      var t :| t in Surviving(lines) && Upper(t) == k;
      UpperIdempotent(t);
    }
  }

  /** The removals take exactly one occurrence of each of `thermo_style` and
      `custom` when there is one, and leave every other word's count alone. */
  lemma RemovalCounts(lines: seq<string>, w: string)
    ensures var before, after := multiset(Tokens(lines))[w], multiset(Surviving(lines))[w];
      after == if (w == "thermo_style" || w == "custom") && before > 0 then before - 1 else before
  {
    var s := Tokens(lines);
    var s1 := if "thermo_style" in s then RemoveFirst(s, "thermo_style") else s;
    assert BadKeywords[..1] == ["thermo_style"];
    assert ["thermo_style"][..0] == [];
    assert RemoveEach(s, BadKeywords[..1]) == s1;
    assert BadKeywords[..2] == BadKeywords;
    assert Surviving(lines) == if "custom" in s1 then RemoveFirst(s1, "custom") else s1;
    if "thermo_style" in s {
      RemoveFirstCount(s, "thermo_style", w);
      RemoveFirstCount(s, "thermo_style", "custom");
    }
    assert "custom" in s1 <==> "custom" in s by {
      assert multiset(s1)["custom"] == multiset(s)["custom"];
    }
    if "custom" in s1 {
      RemoveFirstCount(s1, "custom", w);
    }
  }

  /** With a single keyword line holding each of `thermo_style` and `custom`
      once, neither word survives (so neither becomes a key through itself). */
  lemma SingleLineDropsBothWords(lines: seq<string>)
    requires |ThermoLines(lines)| == 1
    requires multiset(LineTokens(ThermoLines(lines)[0]))["thermo_style"] == 1
    requires multiset(LineTokens(ThermoLines(lines)[0]))["custom"] == 1
    ensures "thermo_style" !in Surviving(lines) && "custom" !in Surviving(lines)
  {
    var kl := ThermoLines(lines);
    assert kl[..0] == [] && kl[..|kl| - 1] == [];
    assert Tokens(lines) == TokensOf(kl[..0]) + LineTokens(kl[0]);
    RemovalCounts(lines, "thermo_style");
    RemovalCounts(lines, "custom");
  }

  /** A second `thermo_style` token survives the single removal and becomes
      the key `THERMO_STYLE`. */
  lemma RepeatedThermoStyleBecomesKey(lines: seq<string>)
    requires multiset(Tokens(lines))["thermo_style"] >= 2
    ensures "THERMO_STYLE" in KeySet(lines)
  {
    RemovalCounts(lines, "thermo_style");
    assert "thermo_style" in Surviving(lines);
    assert Upper("thermo_style") == "THERMO_STYLE";
  }

  predicate Distinct(s: seq<string>)
  {
    forall i, j :: 0 <= i < j < |s| ==> s[i] != s[j]
  }

  /** The two nested loops of `setupLammps` that collect the tokens of the
      keyword lines: each line split on single spaces, each word stripped. */
  method CollectTokens(lines: seq<string>) returns (keywords: seq<string>)
    ensures keywords == Tokens(lines)
  {
    keywords := [];
    var keywordLines := ThermoLines(lines);
    var i := 0;
    while i < |keywordLines|
      invariant 0 <= i <= |keywordLines|
      invariant keywords == TokensOf(keywordLines[..i])
    {
      var temp := SplitSpace(keywordLines[i]);
      var j := 0;
      while j < |temp|
        invariant 0 <= j <= |temp|
        invariant keywords == TokensOf(keywordLines[..i]) + StripAll(temp[..j])
      {
        assert temp[..j + 1][..j] == temp[..j];
        keywords := keywords + [Strip(temp[j])];
        j := j + 1;
      }
      assert temp[..j] == temp;
      assert keywordLines[..i + 1][..i] == keywordLines[..i];
      i := i + 1;
    }
    assert keywordLines[..i] == keywordLines;
  }

  /** The removal loop: the first `thermo_style` and the first `custom` go,
      each only when present. */
  method DropBadKeywords(tokens: seq<string>) returns (keywords: seq<string>)
    ensures keywords == RemoveEach(tokens, BadKeywords)
  {
    keywords := tokens;
    var b := 0;
    while b < |BadKeywords|
      invariant 0 <= b <= |BadKeywords|
      invariant keywords == RemoveEach(tokens, BadKeywords[..b])
    {
      var keyword := BadKeywords[b];
      assert BadKeywords[..b + 1][..b] == BadKeywords[..b];
      if keyword in keywords {
        keywords := RemoveFirst(keywords, keyword);
      }
      b := b + 1;
    }
    assert BadKeywords[..b] == BadKeywords;
  }

  /** `list(set(keywords))` and the dictionary loop: each distinct keyword,
      upper-cased, becomes a key with an empty history; `keyOrder` records
      the order in which keys were first inserted. */
  method KeysFrom(keywords: seq<string>) returns (simInfo: map<string, seq<real>>, keyOrder: seq<string>)
    ensures simInfo.Keys == set t | t in keywords :: Upper(t)
    ensures forall k :: k in simInfo ==> simInfo[k] == []
    ensures Distinct(keyOrder) && (set k | k in keyOrder) == simInfo.Keys
  {
    // list(set(keywords)) visits the distinct keywords in an unspecified order
    var remaining := set k | k in keywords;
    simInfo, keyOrder := map[], [];
    while remaining != {}
      invariant remaining <= set k | k in keywords
      invariant simInfo.Keys == set k | k in keywords && k !in remaining :: Upper(k)
      invariant forall k :: k in simInfo ==> simInfo[k] == []
      invariant Distinct(keyOrder) && (set k | k in keyOrder) == simInfo.Keys
      decreases remaining
    {
      var keyword :| keyword in remaining;
      var key := Upper(keyword);
      if key !in simInfo {
        keyOrder := keyOrder + [key];
      }
      simInfo := simInfo[key := []];
      remaining := remaining - {keyword};
    }
  }

  /** The parse of `setupLammps`: returns the new `sim_info` together with the
      order in which its keys were inserted (the order `sim_info.keys()` yields). */
  method ParseThermoKeywords(lines: seq<string>) returns (simInfo: map<string, seq<real>>, keyOrder: seq<string>)
    ensures simInfo.Keys == KeySet(lines)
    ensures forall k :: k in simInfo ==> simInfo[k] == []
    ensures Distinct(keyOrder) && (set k | k in keyOrder) == simInfo.Keys
  {
    var tokens := CollectTokens(lines);
    var keywords := DropBadKeywords(tokens);
    simInfo, keyOrder := KeysFrom(keywords);
  }
}
