/** The Java string operations the core relies on, over ASCII: `String.trim`,
    `replaceAll("\\s+", " ")`, `toLowerCase`/`toUpperCase`, `split("\\s")`,
    Spring's `StringUtils.capitalize`/`uncapitalize`, `Collectors.joining`,
    log4j's `Strings.isBlank` and the lower-case UUID pattern. */
module Text {

  /** `String.trim` removes every character up to and including U+0020. */
  predicate IsTrimmable(c: char) { c <= ' ' }

  /** The regular-expression class `\s`: `[ \t\n\x0B\f\r]`. */
  predicate IsSpace(c: char) {
    c == ' ' || c == '\t' || c == '\n' || c == '\U{B}' || c == '\U{C}' || c == '\r'
  }

  /** `Character.isWhitespace` on ASCII: `\s` plus the four separators U+001C..U+001F. */
  predicate IsWhitespace(c: char) { IsSpace(c) || '\U{1C}' <= c <= '\U{1F}' }

  /** log4j `Strings.isBlank` of a non-null string. */
  predicate IsBlank(s: string) { forall i :: 0 <= i < |s| ==> IsWhitespace(s[i]) }

  predicate AllTrimmable(s: string) { forall i :: 0 <= i < |s| ==> IsTrimmable(s[i]) }

  // ---------------------------------------------------------------- trim

  /** The string without its leading trimmable characters. */
  function TrimStart(s: string): (r: string)
    ensures |r| <= |s| && r == s[|s| - |r|..]
    ensures r == [] || !IsTrimmable(r[0])
  {
    if s != [] && IsTrimmable(s[0]) then TrimStart(s[1..]) else s
  }

  /** The string without its trailing trimmable characters. */
  function TrimEnd(s: string): (r: string)
    ensures |r| <= |s| && r == s[..|r|]
    ensures r == [] || !IsTrimmable(r[|r| - 1])
  {
    if s != [] && IsTrimmable(s[|s| - 1]) then TrimEnd(s[..|s| - 1]) else s
  }

  /** `TrimStart` drops trimmable characters only. */
  lemma {:induction false} TrimStartDrops(s: string)
    ensures AllTrimmable(s[..|s| - |TrimStart(s)|])
    decreases |s|
  {
    if s != [] && IsTrimmable(s[0]) {
      TrimStartDrops(s[1..]);
      var n := |s| - |TrimStart(s)|;
      forall i | 0 <= i < n ensures IsTrimmable(s[..n][i]) {
        if i > 0 {
          assert s[..n][i] == s[1..][..n - 1][i - 1];
        }
      }
    }
  }

  /** `TrimEnd` drops trimmable characters only. */
  lemma {:induction false} TrimEndDrops(s: string)
    ensures AllTrimmable(s[|TrimEnd(s)|..])
    decreases |s|
  {
    if s != [] && IsTrimmable(s[|s| - 1]) {
      var init := s[..|s| - 1];
      TrimEndDrops(init);
      var n := |TrimEnd(s)|;
      forall i | 0 <= i < |s| - n ensures IsTrimmable(s[n..][i]) {
        if n + i < |s| - 1 {
          assert s[n..][i] == init[n..][i];
        }
      }
    }
  }

  /** `String.trim`. */
  function Trim(s: string): (r: string)
    ensures |r| <= |s|
    ensures r == [] || (!IsTrimmable(r[0]) && !IsTrimmable(r[|r| - 1]))
  {
    TrimEnd(TrimStart(s))
  }

  lemma {:induction false} TrimStartOfPadded(a: string, m: string)
    requires AllTrimmable(a)
    requires m == [] || !IsTrimmable(m[0])
    ensures TrimStart(a + m) == m
    decreases |a|
  {
    if a != [] {
      assert (a + m)[1..] == a[1..] + m;
      TrimStartOfPadded(a[1..], m);
    } else {
      assert a + m == m;
    }
  }

  lemma {:induction false} TrimEndOfPadded(m: string, b: string)
    requires AllTrimmable(b)
    requires m == [] || !IsTrimmable(m[|m| - 1])
    ensures TrimEnd(m + b) == m
    decreases |b|
  {
    if b != [] {
      assert (m + b)[..|m + b| - 1] == m + b[..|b| - 1];
      TrimEndOfPadded(m, b[..|b| - 1]);
    } else {
      assert m + b == m;
    }
  }

  /** `trim` of a core padded on both sides by trimmable characters is that core:
      together with the contract of `Trim` this pins the result down uniquely. */
  lemma TrimOfPadded(a: string, m: string, b: string)
    requires AllTrimmable(a) && AllTrimmable(b)
    requires m == [] || (!IsTrimmable(m[0]) && !IsTrimmable(m[|m| - 1]))
    ensures Trim(a + m + b) == m
  {
    assert a + m + b == a + (m + b);
    if m == [] {
      assert a + m + b == a + b;
      assert AllTrimmable(a + b);
      AllTrimmableTrimStart(a + b);
    } else {
      TrimStartOfPadded(a, m + b);
      TrimEndOfPadded(m, b);
    }
  }

  lemma {:induction false} AllTrimmableTrimStart(s: string)
    requires AllTrimmable(s)
    ensures TrimStart(s) == []
    decreases |s|
  {
    if s != [] {
      AllTrimmableTrimStart(s[1..]);
    }
  }

  /** `trim` is idempotent. */
  lemma TrimIdempotent(s: string)
    ensures Trim(Trim(s)) == Trim(s)
  {
    var m := Trim(s);
    assert [] + m + [] == m;
    TrimOfPadded([], m, []);
  }

  /** `trim().isEmpty()` holds exactly when every character is trimmable. */
  lemma TrimEmptyIff(s: string)
    ensures Trim(s) == [] <==> AllTrimmable(s)
  {
    if AllTrimmable(s) {
      AllTrimmableTrimStart(s);
    } else {
      var t := TrimStart(s);
      TrimStartDrops(s);
      assert t != [];
      TrimEndDrops(t);
      assert !IsTrimmable(t[0]);
    }
  }

  // ------------------------------------------------- collapse-whitespace

  /** The string without its leading `\s` characters. */
  function DropSpaces(s: string): (r: string)
    ensures |r| <= |s| && r == s[|s| - |r|..]
    ensures forall i :: 0 <= i < |s| - |r| ==> IsSpace(s[i])
    ensures r == [] || !IsSpace(r[0])
  {
    if s != [] && IsSpace(s[0]) then DropSpaces(s[1..]) else s
  }

  /** `replaceAll("\\s+", " ")`: every maximal run of `\s` becomes one space. */
  function Collapse(s: string): (r: string)
    ensures |r| <= |s|
    decreases |s|
  {
    if s == [] then []
    else if IsSpace(s[0]) then [' '] + Collapse(DropSpaces(s[1..]))
    else [s[0]] + Collapse(s[1..])
  }

  /** The characters of `s` that are not `\s`, in order. */
  function NonSpaces(s: string): (r: string)
    ensures |r| <= |s|
    ensures forall i :: 0 <= i < |r| ==> !IsSpace(r[i])
  {
    if s == [] then [] else (if IsSpace(s[0]) then [] else [s[0]]) + NonSpaces(s[1..])
  }

  /** No two `\s` characters are adjacent and every `\s` character is a plain space. */
  predicate Collapsed(s: string) {
    (forall i :: 0 <= i < |s| && IsSpace(s[i]) ==> s[i] == ' ')
    && (forall i :: 0 < i < |s| && IsSpace(s[i]) ==> !IsSpace(s[i - 1]))
  }

  lemma {:induction false} NonSpacesDropSpaces(s: string)
    ensures NonSpaces(DropSpaces(s)) == NonSpaces(s)
    decreases |s|
  {
    if s != [] && IsSpace(s[0]) {
      NonSpacesDropSpaces(s[1..]);
    }
  }

  lemma {:induction false} NonSpacesAppend(a: string, b: string)
    ensures NonSpaces(a + b) == NonSpaces(a) + NonSpaces(b)
    decreases |a|
  {
    if a != [] {
      assert (a + b)[1..] == a[1..] + b;
      NonSpacesAppend(a[1..], b);
    } else {
      assert a + b == b;
    }
  }

  /** Collapsing keeps every other character, in order. */
  lemma {:induction false} CollapseKeepsNonSpaces(s: string)
    ensures NonSpaces(Collapse(s)) == NonSpaces(s)
    decreases |s|
  {
    if s == [] {
    } else if IsSpace(s[0]) {
      var t := DropSpaces(s[1..]);
      CollapseKeepsNonSpaces(t);
      NonSpacesAppend([' '], Collapse(t));
      NonSpacesDropSpaces(s[1..]);
    } else {
      CollapseKeepsNonSpaces(s[1..]);
      NonSpacesAppend([s[0]], Collapse(s[1..]));
    }
  }

  /** A collapsed string starts with a space only when the input starts with `\s`. */
  lemma {:induction false} CollapseHead(s: string)
    ensures Collapse(s) != [] <==> s != []
    ensures s != [] ==> (IsSpace(Collapse(s)[0]) <==> IsSpace(s[0]))
  {
  }

  /** A character in front of a collapsed string keeps it collapsed, unless it makes a
      second `\s` in a row or is a `\s` other than a space. */
  lemma ConsCollapsed(c: char, t: string)
    requires Collapsed(t)
    requires IsSpace(c) ==> c == ' ' && (t == [] || !IsSpace(t[0]))
    ensures Collapsed([c] + t)
  {
    var r := [c] + t;
    forall i | 0 < i < |r| && IsSpace(r[i]) ensures !IsSpace(r[i - 1]) {
      if i > 1 {
        assert r[i] == t[i - 1] && r[i - 1] == t[i - 2];
      }
    }
    forall i | 0 <= i < |r| && IsSpace(r[i]) ensures r[i] == ' ' {
      if i > 0 {
        assert r[i] == t[i - 1];
      }
    }
  }

  /** The result of collapsing has no run of two `\s` and no `\s` other than a space. */
  lemma {:induction false} CollapseIsCollapsed(s: string)
    ensures Collapsed(Collapse(s))
    decreases |s|
  {
    if s == [] {
    } else if IsSpace(s[0]) {
      var t := DropSpaces(s[1..]);
      CollapseIsCollapsed(t);
      CollapseHead(t);
      ConsCollapsed(' ', Collapse(t));
    } else {
      CollapseIsCollapsed(s[1..]);
      ConsCollapsed(s[0], Collapse(s[1..]));
    }
  }

  /** The tail of a collapsed string is collapsed. */
  lemma TailCollapsed(s: string)
    requires Collapsed(s) && s != []
    ensures Collapsed(s[1..])
  {
    var tail := s[1..];
    forall i | 0 <= i < |tail| && IsSpace(tail[i]) ensures tail[i] == ' ' {
      assert tail[i] == s[i + 1];
    }
    forall i | 0 < i < |tail| && IsSpace(tail[i]) ensures !IsSpace(tail[i - 1]) {
      assert tail[i] == s[i + 1] && tail[i - 1] == s[i];
    }
  }

  /** A collapsed string is left as it is. */
  lemma {:induction false} CollapseOfCollapsed(s: string)
    requires Collapsed(s)
    ensures Collapse(s) == s
    decreases |s|
  {
    if s != [] {
      var tail := s[1..];
      TailCollapsed(s);
      if IsSpace(s[0]) && tail != [] {
        assert !IsSpace(tail[0]) by {
          assert tail[0] == s[1];
        }
      }
      CollapseOfCollapsed(tail);
    }
  }

  /** `collapse-whitespace` is idempotent. */
  lemma CollapseIdempotent(s: string)
    ensures Collapse(Collapse(s)) == Collapse(s)
  {
    CollapseIsCollapsed(s);
    CollapseOfCollapsed(Collapse(s));
  }

  // ---------------------------------------------------------------- case

  function LowerChar(c: char): char {
    if 'A' <= c <= 'Z' then (c as int + 32) as char else c
  }

  function UpperChar(c: char): char {
    if 'a' <= c <= 'z' then (c as int - 32) as char else c
  }

  /** `String.toLowerCase`. */
  function ToLower(s: string): (r: string)
    ensures |r| == |s|
    ensures forall i :: 0 <= i < |s| ==> r[i] == LowerChar(s[i])
  {
    if s == [] then [] else [LowerChar(s[0])] + ToLower(s[1..])
  }

  /** `String.toUpperCase`. */
  function ToUpper(s: string): (r: string)
    ensures |r| == |s|
    ensures forall i :: 0 <= i < |s| ==> r[i] == UpperChar(s[i])
  {
    if s == [] then [] else [UpperChar(s[0])] + ToUpper(s[1..])
  }

  /** Folding to one case and then to the other is the same as folding to the other. */
  lemma CaseFolds(s: string)
    ensures ToLower(ToLower(s)) == ToLower(s) && ToUpper(ToUpper(s)) == ToUpper(s)
    ensures ToLower(ToUpper(s)) == ToLower(s) && ToUpper(ToLower(s)) == ToUpper(s)
  {
  }

  /** Spring `StringUtils.capitalize`: the first character upper-cased. */
  function Capitalize(s: string): (r: string)
    ensures |r| == |s|
    ensures s != [] ==> r[0] == UpperChar(s[0]) && r[1..] == s[1..]
  {
    if s == [] then s else [UpperChar(s[0])] + s[1..]
  }

  /** Spring `StringUtils.uncapitalize`: the first character lower-cased. */
  function Uncapitalize(s: string): (r: string)
    ensures |r| == |s|
    ensures s != [] ==> r[0] == LowerChar(s[0]) && r[1..] == s[1..]
  {
    if s == [] then s else [LowerChar(s[0])] + s[1..]
  }

  // ------------------------------------------------------- split and join

  /** Splits at every `\s` character: one piece more than there are separators. */
  function SplitAll(s: string): (pieces: seq<string>)
    ensures |pieces| >= 1
    ensures forall k :: 0 <= k < |pieces| ==> forall j :: 0 <= j < |pieces[k]| ==> !IsSpace(pieces[k][j])
    ensures forall k :: 0 <= k < |pieces| ==> forall j :: 0 <= j < |pieces[k]| ==> pieces[k][j] in s
  {
    if s == [] then [[]]
    else
      var rest := SplitAll(s[1..]);
      if IsSpace(s[0]) then [[]] + rest else [[s[0]] + rest[0]] + rest[1..]
  }

  /** The sequence without its trailing empty strings. */
  function DropTrailingEmpty(pieces: seq<string>): (r: seq<string>)
    ensures |r| <= |pieces| && r == pieces[..|r|]
    ensures r == [] || r[|r| - 1] != []
    ensures forall k :: |r| <= k < |pieces| ==> pieces[k] == []
  {
    if pieces != [] && pieces[|pieces| - 1] == [] then DropTrailingEmpty(pieces[..|pieces| - 1]) else pieces
  }

  predicate HasSpace(s: string) { exists i :: 0 <= i < |s| && IsSpace(s[i]) }

  /** `String.split("\\s")`: when nothing matches, the whole input is the one piece;
      otherwise the pieces between separators, trailing empty pieces removed. */
  function JavaSplit(s: string): (pieces: seq<string>)
  {
    if HasSpace(s) then DropTrailingEmpty(SplitAll(s)) else [s]
  }

  /** `Collectors.joining(sep)`. */
  function Join(pieces: seq<string>, sep: string): (r: string)
    ensures pieces == [] ==> r == []
  {
    if pieces == [] then []
    else if |pieces| == 1 then pieces[0]
    else pieces[0] + sep + Join(pieces[1..], sep)
  }

  /** Every `\s` character replaced by a plain space. */
  function Blanked(s: string): (r: string)
    ensures |r| == |s|
    ensures forall i :: 0 <= i < |s| ==> r[i] == (if IsSpace(s[i]) then ' ' else s[i])
  {
    if s == [] then [] else [if IsSpace(s[0]) then ' ' else s[0]] + Blanked(s[1..])
  }

  /** The string without its trailing plain spaces. */
  function DropTrailingBlanks(s: string): (r: string)
    ensures |r| <= |s| && r == s[..|r|]
    ensures forall i :: |r| <= i < |s| ==> s[i] == ' '
    ensures r == [] || r[|r| - 1] != ' '
  {
    if s != [] && s[|s| - 1] == ' ' then DropTrailingBlanks(s[..|s| - 1]) else s
  }

  lemma {:induction false} JoinSplitAll(s: string)
    ensures Join(SplitAll(s), " ") == Blanked(s)
    decreases |s|
  {
    if s != [] {
      var rest := SplitAll(s[1..]);
      JoinSplitAll(s[1..]);
      if IsSpace(s[0]) {
        assert Join([[]] + rest, " ") == [] + " " + Join(rest, " ") by {
          assert ([[]] + rest)[1..] == rest;
        }
      } else {
        var p := [[s[0]] + rest[0]] + rest[1..];
        if |rest| == 1 {
          assert Join(rest, " ") == rest[0];
        } else {
          assert Join(rest, " ") == rest[0] + " " + Join(rest[1..], " ");
          assert p[1..] == rest[1..];
        }
      }
    }
  }

  predicate NoBlankIn(pieces: seq<string>) {
    forall k, j :: 0 <= k < |pieces| && 0 <= j < |pieces[k]| ==> pieces[k][j] != ' '
  }

  lemma {:induction false} JoinSnoc(pieces: seq<string>, x: string)
    requires pieces != []
    ensures Join(pieces + [x], " ") == Join(pieces, " ") + " " + x
    decreases |pieces|
  {
    if |pieces| == 1 {
      assert (pieces + [x])[1..] == [x];
    } else {
      assert (pieces + [x])[1..] == pieces[1..] + [x];
      JoinSnoc(pieces[1..], x);
    }
  }

  lemma {:induction false} JoinLast(pieces: seq<string>)
    requires pieces != [] && pieces[|pieces| - 1] != []
    ensures Join(pieces, " ") != [] && Join(pieces, " ")[|Join(pieces, " ")| - 1] == pieces[|pieces| - 1][|pieces[|pieces| - 1]| - 1]
    decreases |pieces|
  {
    if |pieces| > 1 {
      JoinLast(pieces[1..]);
    }
  }

  lemma DropTrailingBlanksSpace(s: string)
    ensures DropTrailingBlanks(s + " ") == DropTrailingBlanks(s)
  {
    assert (s + " ")[..|s + " "| - 1] == s;
  }

  /** Dropping trailing empty pieces before joining drops the trailing separators after. */
  lemma {:induction false} JoinDropTrailingEmpty(pieces: seq<string>)
    requires NoBlankIn(pieces)
    ensures Join(DropTrailingEmpty(pieces), " ") == DropTrailingBlanks(Join(pieces, " "))
    decreases |pieces|
  {
    var n := |pieces|;
    if n == 0 {
    } else if pieces[n - 1] == [] {
      var init := pieces[..n - 1];
      NoBlankInInit(pieces);
      JoinDropTrailingEmpty(init);
      assert DropTrailingEmpty(pieces) == DropTrailingEmpty(init);
      if n > 1 {
        JoinEmptyLast(init);
        assert pieces == init + [[]];
      } else {
        assert Join(pieces, " ") == [];
      }
    } else {
      JoinEndsInPiece(pieces);
    }
  }

  lemma NoBlankInInit(pieces: seq<string>)
    requires pieces != [] && NoBlankIn(pieces)
    ensures NoBlankIn(pieces[..|pieces| - 1])
  {
    var init := pieces[..|pieces| - 1];
    forall k, j | 0 <= k < |init| && 0 <= j < |init[k]| ensures init[k][j] != ' ' {
      assert init[k] == pieces[k];
    }
  }

  /** A trailing empty piece only adds a separator, which trailing blanks drop. */
  lemma JoinEmptyLast(init: seq<string>)
    requires init != []
    ensures DropTrailingBlanks(Join(init + [[]], " ")) == DropTrailingBlanks(Join(init, " "))
  {
    JoinSnoc(init, []);
    assert Join(init, " ") + " " + [] == Join(init, " ") + " ";
    DropTrailingBlanksSpace(Join(init, " "));
  }

  /** Pieces without blanks whose last piece is not empty join to a string with no
      trailing blank. */
  lemma JoinEndsInPiece(pieces: seq<string>)
    requires NoBlankIn(pieces) && pieces != [] && pieces[|pieces| - 1] != []
    ensures DropTrailingEmpty(pieces) == pieces
    ensures DropTrailingBlanks(Join(pieces, " ")) == Join(pieces, " ")
  {
    JoinLast(pieces);
    var last := pieces[|pieces| - 1];
    assert last[|last| - 1] != ' ';
  }

  /** Joining the pieces of `split("\s")` with one space gives back the input with each
      `\s` character turned into a space and the trailing spaces removed. */
  lemma JoinJavaSplit(s: string)
    ensures Join(JavaSplit(s), " ") == DropTrailingBlanks(Blanked(s))
  {
    if HasSpace(s) {
      var p := SplitAll(s);
      JoinSplitAll(s);
      assert NoBlankIn(p) by {
        forall k, j | 0 <= k < |p| && 0 <= j < |p[k]| ensures p[k][j] != ' ' {
          assert !IsSpace(p[k][j]);
        }
      }
      JoinDropTrailingEmpty(p);
    } else {
      assert Blanked(s) == s;
      if s != [] {
        assert !IsSpace(s[|s| - 1]);
      }
    }
  }

  /** `case` with mode `start`: lower-case, split at each `\s`, capitalise each piece,
      join with one space. */
  function StartCase(s: string): (r: string)
  {
    Join(MapCapitalize(JavaSplit(ToLower(s))), " ")
  }

  function MapCapitalize(pieces: seq<string>): (r: seq<string>)
    ensures |r| == |pieces|
    ensures forall k :: 0 <= k < |pieces| ==> r[k] == Capitalize(pieces[k])
  {
    if pieces == [] then [] else [Capitalize(pieces[0])] + MapCapitalize(pieces[1..])
  }

  predicate IsLower(w: string) { forall i :: 0 <= i < |w| ==> LowerChar(w[i]) == w[i] }

  lemma ToLowerAppend(a: string, b: string)
    ensures ToLower(a + b) == ToLower(a) + ToLower(b)
  {
    assert forall i :: 0 <= i < |a + b| ==> ToLower(a + b)[i] == (ToLower(a) + ToLower(b))[i];
  }

  lemma LowerOfCapitalized(w: string)
    requires IsLower(w)
    ensures ToLower(Capitalize(w)) == w
  {
    if w != [] {
      assert ToLower(Capitalize(w))[0] == w[0];
      assert forall i :: 1 <= i < |w| ==> ToLower(Capitalize(w))[i] == w[i];
    }
  }

  lemma {:induction false} LowerOfJoinCapitalized(pieces: seq<string>)
    requires forall k :: 0 <= k < |pieces| ==> IsLower(pieces[k])
    ensures ToLower(Join(MapCapitalize(pieces), " ")) == Join(pieces, " ")
    decreases |pieces|
  {
    if |pieces| == 1 {
      LowerOfCapitalized(pieces[0]);
    } else if |pieces| > 1 {
      var caps := MapCapitalize(pieces);
      assert caps[1..] == MapCapitalize(pieces[1..]);
      LowerOfJoinCapitalized(pieces[1..]);
      LowerOfCapitalized(pieces[0]);
      ToLowerAppend(caps[0] + " ", Join(caps[1..], " "));
      ToLowerAppend(caps[0], " ");
    }
  }

  /** The pieces `split` produces from a lower-case string are lower-case. */
  lemma JavaSplitOfLower(t: string)
    requires IsLower(t)
    ensures forall k :: 0 <= k < |JavaSplit(t)| ==> IsLower(JavaSplit(t)[k])
  {
    if HasSpace(t) {
      var p := SplitAll(t);
      forall k | 0 <= k < |p| ensures IsLower(p[k]) {
        forall j | 0 <= j < |p[k]| ensures LowerChar(p[k][j]) == p[k][j] {
          assert p[k][j] in t;
        }
      }
    }
  }

  /** `case start` changes only the case of letters, turns every `\s` character into a
      space and drops trailing whitespace: lower-casing its result gives the lower-cased
      input, blanked and right-trimmed. */
  lemma StartCaseLowered(s: string)
    ensures ToLower(StartCase(s)) == DropTrailingBlanks(Blanked(ToLower(s)))
  {
    var t := ToLower(s);
    JavaSplitOfLower(t);
    LowerOfJoinCapitalized(JavaSplit(t));
    JoinJavaSplit(t);
  }

  /** Whether position `i` of `t` opens a word. */
  predicate WordStart(t: string, i: int)
    requires 0 <= i < |t|
  {
    i == 0 || t[i - 1] == ' '
  }

  /** The word-initial capitalisation of `t`: a character is upper-cased when it opens
      the string or follows a space. */
  predicate CapitalisedWords(c: string, t: string) {
    |c| == |t| && forall i :: 0 <= i < |t| ==> c[i] == (if WordStart(t, i) then UpperChar(t[i]) else t[i])
  }

  /** A piece without blanks, capitalised, has its one word capitalised. */
  lemma CapitalisedPiece(t: string)
    requires forall j :: 0 <= j < |t| ==> t[j] != ' '
    ensures CapitalisedWords(Capitalize(t), t)
  {
    forall i | 0 < i < |t|
      ensures Capitalize(t)[i] == t[i]
    {
      assert Capitalize(t)[i] == Capitalize(t)[1..][i - 1];
    }
  }

  /** Capitalised words stay capitalised when joined by a space. */
  lemma CapitalisedConcat(c0: string, t0: string, c1: string, t1: string)
    requires CapitalisedWords(c0, t0) && CapitalisedWords(c1, t1)
    ensures CapitalisedWords(c0 + " " + c1, t0 + " " + t1)
  {
    var c, t := c0 + " " + c1, t0 + " " + t1;
    forall i | 0 <= i < |t|
      ensures c[i] == (if WordStart(t, i) then UpperChar(t[i]) else t[i])
    {
      if i < |t0| {
        assert c0[i] == (if WordStart(t0, i) then UpperChar(t0[i]) else t0[i]);
        assert t[i] == t0[i] && c[i] == c0[i];
        assert WordStart(t, i) == WordStart(t0, i) by {
          if i > 0 {
            assert t[i - 1] == t0[i - 1];
          }
        }
      } else if i > |t0| {
        var k := i - |t0| - 1;
        assert 0 <= k < |t1|;
        assert c1[k] == (if WordStart(t1, k) then UpperChar(t1[k]) else t1[k]);
        assert t[i] == t1[k] && c[i] == c1[k];
        assert WordStart(t, i) == WordStart(t1, k) by {
          if k > 0 {
            assert t[i - 1] == t1[k - 1];
          } else {
            assert t[i - 1] == ' ';
          }
        }
      } else {
        assert t[i] == ' ' && c[i] == ' ' && UpperChar(' ') == ' ';
      }
    }
  }

  /** Joining capitalised pieces with one space capitalises every word of the joined
      pieces. */
  lemma {:induction false} JoinCapitalized(pieces: seq<string>)
    requires NoBlankIn(pieces)
    ensures CapitalisedWords(Join(MapCapitalize(pieces), " "), Join(pieces, " "))
    decreases |pieces|
  {
    if pieces != [] {
      var first := pieces[0];
      assert forall j :: 0 <= j < |first| ==> first[j] != ' ';
      CapitalisedPiece(first);
      if |pieces| > 1 {
        var rest := pieces[1..];
        assert NoBlankIn(rest) by {
          forall k, j | 0 <= k < |rest| && 0 <= j < |rest[k]| ensures rest[k][j] != ' ' {
            assert rest[k] == pieces[k + 1];
          }
        }
        assert MapCapitalize(pieces)[1..] == MapCapitalize(rest);
        JoinCapitalized(rest);
        CapitalisedConcat(Capitalize(first), first, Join(MapCapitalize(rest), " "), Join(rest, " "));
      }
    }
  }

  /** `case start` character by character: the lower-cased input with each `\s`
      turned into a space and trailing spaces dropped, with the first letter of every
      word upper-cased. */
  lemma StartCaseShape(s: string)
    ensures CapitalisedWords(StartCase(s), DropTrailingBlanks(Blanked(ToLower(s))))
  {
    var t := ToLower(s);
    var p := JavaSplit(t);
    JoinJavaSplit(t);
    assert NoBlankIn(p) by {
      if HasSpace(t) {
        var all := SplitAll(t);
        var kept := DropTrailingEmpty(all);
        forall k, j | 0 <= k < |kept| && 0 <= j < |kept[k]| ensures kept[k][j] != ' ' {
          assert kept[k] == all[k];
          assert !IsSpace(all[k][j]);
        }
      } else {
        forall j | 0 <= j < |t| ensures t[j] != ' ' {
          assert !IsSpace(t[j]);
        }
      }
    }
    JoinCapitalized(p);
  }

  // --------------------------------------------------------------- UUIDs

  predicate IsLowerHex(c: char) { '0' <= c <= '9' || 'a' <= c <= 'f' }

  /** `matches("^[0-9a-f]{8}-[0-9a-f]{4}-[0-9a-f]{4}-[0-9a-f]{4}-[0-9a-f]{12}$")`. */
  predicate IsLowerUuid(s: string) {
    |s| == 36
    && (forall i :: 0 <= i < 36 && i != 8 && i != 13 && i != 18 && i != 23 ==> IsLowerHex(s[i]))
    && s[8] == '-' && s[13] == '-' && s[18] == '-' && s[23] == '-'
  }

  /** `String.startsWith`. */
  predicate StartsWith(s: string, prefix: string) {
    |prefix| <= |s| && s[..|prefix|] == prefix
  }
}
