/**
 * The skills normaliser of the create-or-update handler:
 * `skills.split(",").map(skill => skill.trim())`.
 */
module Skills {

  /** The code points JavaScript's String.prototype.trim removes (WhiteSpace and LineTerminator). */
  predicate IsJsSpace(c: char) {
    || c == '\t' || c == '\n' || c == '\U{000B}' || c == '\U{000C}' || c == '\r' || c == ' '
    || c == '\U{00A0}' || c == '\U{1680}' || ('\U{2000}' <= c <= '\U{200A}')
    || c == '\U{2028}' || c == '\U{2029}' || c == '\U{202F}' || c == '\U{205F}'
    || c == '\U{3000}' || c == '\U{FEFF}'
  }

  predicate AllSpace(s: string) {
    forall i :: 0 <= i < |s| ==> IsJsSpace(s[i])
  }

  /** Neither the first nor the last character is white space. */
  predicate NoSurroundingSpace(s: string) {
    s == [] || (!IsJsSpace(s[0]) && !IsJsSpace(s[|s| - 1]))
  }

  /** Drops the leading white space. */
  function TrimStart(s: string): string {
    if s != [] && IsJsSpace(s[0]) then TrimStart(s[1..]) else s
  }

  /** Drops the trailing white space. */
  function TrimEnd(s: string): string {
    if s != [] && IsJsSpace(s[|s| - 1]) then TrimEnd(s[..|s| - 1]) else s
  }

  /** String.prototype.trim. */
  function Trim(s: string): string {
    TrimEnd(TrimStart(s))
  }

  /** The number of separators in `s`. */
  function CommaCount(s: string): nat {
    if s == [] then 0 else (if s[0] == ',' then 1 else 0) + CommaCount(s[1..])
  }

  /** String.prototype.split(","): the pieces between the commas, in order, empty ones included. */
  function Split(s: string): (r: seq<string>)
    ensures |r| == CommaCount(s) + 1
  {
    if s == [] then [""]
    else
      var rest := Split(s[1..]);
      if s[0] == ',' then [""] + rest else [[s[0]] + rest[0]] + rest[1..]
  }

  /** Array.prototype.join(","), the inverse of Split. */
  function Join(pieces: seq<string>): string
    requires |pieces| >= 1
  {
    if |pieces| == 1 then pieces[0] else pieces[0] + "," + Join(pieces[1..])
  }

  /** `pieces.map(skill => skill.trim())`. */
  function TrimEach(pieces: seq<string>): (r: seq<string>)
    ensures |r| == |pieces|
  {
    if pieces == [] then [] else [Trim(pieces[0])] + TrimEach(pieces[1..])
  }

  /** The skills list stored in the profile: every piece of the split, trimmed. */
  function NormalizeSkills(s: string): seq<string> {
    TrimEach(Split(s))
  }

  // ---- what trimming does ----

  /** TrimStart leaves a suffix that starts with a non-space; what it drops is white space. */
  lemma {:induction false} TrimStartSuffix(s: string)
    ensures |TrimStart(s)| <= |s| && TrimStart(s) == s[|s| - |TrimStart(s)|..]
    ensures AllSpace(s[..|s| - |TrimStart(s)|])
    ensures TrimStart(s) == [] || !IsJsSpace(TrimStart(s)[0])
  {
    if s != [] && IsJsSpace(s[0]) {
      TrimStartSuffix(s[1..]);
      var k := |s| - |TrimStart(s)|;
      assert s[..k] == [s[0]] + s[1..][..k - 1];
    }
  }

  /** TrimEnd leaves a prefix that ends with a non-space; what it drops is white space. */
  lemma {:induction false} TrimEndPrefix(s: string)
    ensures |TrimEnd(s)| <= |s| && TrimEnd(s) == s[..|TrimEnd(s)|]
    ensures AllSpace(s[|TrimEnd(s)|..])
    ensures TrimEnd(s) == [] || !IsJsSpace(TrimEnd(s)[|TrimEnd(s)| - 1])
  {
    if s != [] && IsJsSpace(s[|s| - 1]) {
      var t := s[..|s| - 1];
      TrimEndPrefix(t);
      var k := |TrimEnd(s)|;
      assert s[k..] == t[k..] + [s[|s| - 1]];
    }
  }

  /** A trimmed string has no white space at either end. */
  lemma TrimNoSurroundingSpace(s: string)
    ensures NoSurroundingSpace(Trim(s))
  {
    var t := TrimStart(s);
    TrimStartSuffix(s);
    TrimEndPrefix(t);
    var r := TrimEnd(t);
    if r != [] {
      assert r[0] == t[0];
    }
  }

  /** Trim only removes white space from the two ends: its input is space, result, space. */
  lemma TrimIsInfix(s: string)
    ensures exists i :: (0 <= i <= |s| - |Trim(s)| && s[i..i + |Trim(s)|] == Trim(s)
                         && AllSpace(s[..i]) && AllSpace(s[i + |Trim(s)|..]))
  {
    var t := TrimStart(s);
    TrimStartSuffix(s);
    TrimEndPrefix(t);
    var i := |s| - |t|;
    var r := TrimEnd(t);
    assert s[i..] == t;
    assert s[i..i + |r|] == t[..|r|];
    assert s[i + |r|..] == t[|r|..];
  }

  lemma {:induction false} TrimStartOfSpacePrefix(a: string, t: string)
    requires AllSpace(a)
    requires t == [] || !IsJsSpace(t[0])
    ensures TrimStart(a + t) == t
  {
    if a != [] {
      assert (a + t)[1..] == a[1..] + t;
      TrimStartOfSpacePrefix(a[1..], t);
    } else {
      assert a + t == t;
    }
  }

  lemma {:induction false} TrimEndOfSpaceSuffix(t: string, b: string)
    requires AllSpace(b)
    requires t == [] || !IsJsSpace(t[|t| - 1])
    ensures TrimEnd(t + b) == t
  {
    if b != [] {
      assert (t + b)[..|t + b| - 1] == t + b[..|b| - 1];
      TrimEndOfSpaceSuffix(t, b[..|b| - 1]);
    } else {
      assert t + b == t;
    }
  }

  /**
   * Whenever `s` is white space, then a core with no surrounding white space, then white
   * space, Trim returns exactly that core.
   */
  lemma TrimIsCore(a: string, core: string, b: string)
    requires AllSpace(a) && AllSpace(b) && NoSurroundingSpace(core)
    ensures Trim(a + core + b) == core
  {
    if core == [] {
      assert a + core + b == a + b;
      assert AllSpace(a + b);
      TrimStartOfSpacePrefix(a + b, []);
      assert a + b + [] == a + b;
      TrimEndOfSpaceSuffix([], []);
    } else {
      assert a + core + b == a + (core + b);
      TrimStartOfSpacePrefix(a, core + b);
      TrimEndOfSpaceSuffix(core, b);
    }
  }

  /** Trimming never introduces a character, so a comma-free piece stays comma-free. */
  lemma TrimKeepsCommaFree(piece: string)
    requires ',' !in piece
    ensures ',' !in Trim(piece)
  {
    var t := TrimStart(piece);
    TrimStartSuffix(piece);
    TrimEndPrefix(t);
    var r := TrimEnd(t);
    forall j | 0 <= j < |r| ensures r[j] != ',' {
      assert r[j] == t[j];
      assert t[j] == piece[|piece| - |t| + j];
    }
  }

  // ---- Split and Join are inverse ----

  /** No piece of a split holds the separator. */
  lemma {:induction false} SplitPiecesCommaFree(s: string)
    ensures forall i :: 0 <= i < |Split(s)| ==> ',' !in Split(s)[i]
  {
    if s != [] {
      SplitPiecesCommaFree(s[1..]);
      var rest := Split(s[1..]);
      if s[0] != ',' {
        assert forall i :: 1 <= i < |Split(s)| ==> Split(s)[i] == rest[i];
      } else {
        assert forall i :: 1 <= i < |Split(s)| ==> Split(s)[i] == rest[i - 1];
      }
    }
  }

  lemma {:induction false} JoinSplit(s: string)
    ensures Join(Split(s)) == s
  {
    if s != [] {
      JoinSplit(s[1..]);
      var rest := Split(s[1..]);
      if s[0] == ',' {
        assert Split(s)[1..] == rest;
        assert s == [','] + s[1..];
      } else {
        var r := Split(s);
        assert r[0] == [s[0]] + rest[0];
        if |rest| == 1 {
          assert s == [s[0]] + s[1..];
        } else {
          assert r[1..] == rest[1..];
          assert s == [s[0]] + s[1..];
        }
      }
    }
  }

  lemma {:induction false} SplitJoin(pieces: seq<string>)
    requires |pieces| >= 1
    requires forall i :: 0 <= i < |pieces| ==> ',' !in pieces[i]
    ensures Split(Join(pieces)) == pieces
    decreases |pieces|, |pieces[0]|
  {
    var p := pieces[0];
    if p == [] {
      if |pieces| > 1 {
        var s := Join(pieces);
        assert s == "," + Join(pieces[1..]);
        assert s[1..] == Join(pieces[1..]);
        SplitJoin(pieces[1..]);
        assert Split(s) == [""] + pieces[1..];
      }
    } else {
      var s := Join(pieces);
      var tail := [p[1..]] + pieces[1..];
      assert tail[0] == p[1..];
      assert forall i :: 1 <= i < |tail| ==> tail[i] == pieces[i];
      assert tail[1..] == pieces[1..];
      assert Join(tail) == s[1..] by {
        if |pieces| > 1 {
          assert s == p + "," + Join(pieces[1..]);
        }
      }
      SplitJoin(tail);
      assert s[0] == p[0];
      assert [p[0]] + p[1..] == p;
      assert Split(s) == [[p[0]] + p[1..]] + pieces[1..];
    }
  }

  // ---- what the stored skills list looks like ----

  /** The i-th stored skill is the i-th piece, trimmed. */
  lemma {:induction false} TrimEachAt(pieces: seq<string>, i: nat)
    requires i < |pieces|
    ensures TrimEach(pieces)[i] == Trim(pieces[i])
  {
    if i > 0 {
      TrimEachAt(pieces[1..], i - 1);
    }
  }

  /**
   * One entry per comma-separated piece, in input order; each entry is that piece with its
   * surrounding white space removed, so it has none left and no comma; empty entries are kept.
   */
  lemma NormalizeSkillsPieces(s: string)
    ensures |NormalizeSkills(s)| == CommaCount(s) + 1
    ensures Join(Split(s)) == s
    ensures forall i :: 0 <= i < |NormalizeSkills(s)| ==>
      NormalizeSkills(s)[i] == Trim(Split(s)[i])
      && NoSurroundingSpace(NormalizeSkills(s)[i]) && ',' !in NormalizeSkills(s)[i]
  {
    JoinSplit(s);
    SplitPiecesCommaFree(s);
    var pieces := Split(s);
    var r := NormalizeSkills(s);
    forall i | 0 <= i < |r|
      ensures r[i] == Trim(pieces[i]) && NoSurroundingSpace(r[i]) && ',' !in r[i]
    {
      TrimEachAt(pieces, i);
      TrimNoSurroundingSpace(pieces[i]);
      TrimKeepsCommaFree(pieces[i]);
    }
  }

  /** Padding around the commas goes: "a, b ,c" becomes ["a", "b", "c"]. */
  lemma NormalizeExample()
    ensures NormalizeSkills("a, b ,c") == ["a", "b", "c"]
  {
    SplitExample();
    TrimWord("a");
    TrimPaddedExample();
    TrimWord("c");
    assert TrimEach(["c"]) == ["c"];
    assert TrimEach([" b ", "c"]) == ["b", "c"];
  }

  lemma TrimPaddedExample()
    ensures Trim(" b ") == "b"
  {
    TrimIsCore(" ", "b", " ");
    assert " " + "b" + " " == " b ";
  }

  /** A word of ASCII letters is its own trim. */
  lemma TrimWord(w: string)
    requires forall i :: 0 <= i < |w| ==> 'a' <= w[i] <= 'z'
    ensures Trim(w) == w
  {
    TrimIsCore("", w, "");
    assert "" + w + "" == w;
  }

  lemma SplitExample()
    ensures Split("a, b ,c") == ["a", " b ", "c"]
  {
    var pieces := ["a", " b ", "c"];
    assert Join(pieces) == "a, b ,c" by {
      assert Join(pieces[1..]) == " b ,c" by {
        assert Join(pieces[2..]) == "c";
      }
    }
    SplitJoin(pieces);
  }

  /** Empty pieces are kept: "ui,,api," gives four entries, two of them empty. */
  lemma NormalizeKeepsEmptyPieces()
    ensures NormalizeSkills("ui,,api,") == ["ui", "", "api", ""]
  {
    SplitEmptyPiecesExample();
    TrimWord("ui");
    TrimWord("api");
    TrimWord("");
    assert TrimEach([""]) == [""];
    assert TrimEach(["api", ""]) == ["api", ""];
    assert TrimEach(["", "api", ""]) == ["", "api", ""];
  }

  lemma SplitEmptyPiecesExample()
    ensures Split("ui,,api,") == ["ui", "", "api", ""]
  {
    var pieces := ["ui", "", "api", ""];
    assert Join(pieces) == "ui,,api," by {
      assert Join(pieces[1..]) == ",api," by {
        assert Join(pieces[2..]) == "api," by {
          assert Join(pieces[3..]) == "";
        }
      }
    }
    SplitJoin(pieces);
  }
}
