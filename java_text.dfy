/**
 * The few pieces of java.lang that the chat relay's protocol code relies on:
 * `String.startsWith`, `String.split(" ")`, `Integer.parseInt`,
 * `Integer.toString`, and the rendering of a null String by `+`.
 */
module JavaText {

  datatype Option<T> = None | Some(value: T)

  /** Whether a transport call completed or threw an IOException out of the handler. */
  datatype Outcome = Completed | IOFailure

  /** Java's `int`. */
  newtype int32 = x: int | -0x8000_0000 <= x < 0x8000_0000

  /** `s.startsWith(p)` */
  predicate StartsWith(s: string, p: string)
    ensures StartsWith(s, p) ==> |p| <= |s| && s == p + s[|p|..]
  {
    |p| <= |s| && s[..|p|] == p
  }

  /** `s` starts with `p` exactly when `s` is `p` followed by something. */
  lemma StartsWithConcat(s: string, p: string)
    ensures StartsWith(s, p) <==> |p| <= |s| && s == p + s[|p|..]
    ensures StartsWith(p + s, p)
  {
    if |p| <= |s| && s == p + s[|p|..] {
      assert s[..|p|] == (p + s[|p|..])[..|p|];
    }
    assert (p + s)[..|p|] == p;
  }

  /**
   * String concatenation renders a null reference as "null", so a null and
   * the string "null" print alike.
   */
  function Render(v: Option<string>): (r: string)
    ensures v.Some? ==> r == v.value
    ensures r == "null" <==> v == None || v == Some("null")
  {
    match v
    case Some(t) => t
    case None => "null"
  }

  // ---------------------------------------------------------------------------
  // String.split(" ")
  // ---------------------------------------------------------------------------

  /** The pieces between single spaces, empty pieces included: one more piece than spaces. */
  function Pieces(s: string): (r: seq<string>)
    ensures |r| >= 1
    ensures forall i :: 0 <= i < |r| ==> ' ' !in r[i]
    ensures |s| > 0 && s[0] != ' ' ==> |r[0]| > 0 && r[0][0] == s[0]
    ensures |r[0]| > 0 ==> |s| > 0 && s[0] == r[0][0]
    decreases |s|
  {
    if s == [] then [""]
    else if s[0] == ' ' then [""] + Pieces(s[1..])
    else
      var t := Pieces(s[1..]);
      [[s[0]] + t[0]] + t[1..]
  }

  /** Glues tokens back together with single spaces; the inverse of Pieces. */
  function Join(ts: seq<string>): string
    decreases |ts|
  {
    if |ts| == 0 then ""
    else if |ts| == 1 then ts[0]
    else ts[0] + " " + Join(ts[1..])
  }

  /** What `split` does with a limit of zero: trailing empty strings are removed. */
  function DropTrailingEmpty(ts: seq<string>): (r: seq<string>)
    ensures |r| <= |ts| && r == ts[..|r|]
    ensures |r| > 0 ==> r[|r| - 1] != ""
    ensures forall i :: |r| <= i < |ts| ==> ts[i] == ""
    decreases |ts|
  {
    if |ts| > 0 && ts[|ts| - 1] == "" then DropTrailingEmpty(ts[..|ts| - 1]) else ts
  }

  function TrimTrailingSpaces(s: string): string
    decreases |s|
  {
    if |s| > 0 && s[|s| - 1] == ' ' then TrimTrailingSpaces(s[..|s| - 1]) else s
  }

  /**
   * `s.split(" ")`. A string without a space comes back whole (so "" gives [""]);
   * otherwise the pieces between single spaces, with trailing empty pieces
   * dropped, so "#login " gives ["#login"] and "#setport  6000" gives
   * ["#setport", "", "6000"]. SplitSpec characterises the result.
   */
  function Split(s: string): (r: seq<string>)
    ensures forall i :: 0 <= i < |r| ==> ' ' !in r[i]
    ensures |s| > 0 && s[0] != ' ' ==> |r| >= 1 && |r[0]| > 0 && r[0][0] == s[0]
    ensures |r| >= 1 && |r[0]| > 0 ==> |s| > 0 && s[0] == r[0][0]
  {
    if ' ' !in s then [s]
    else
      var p := Pieces(s);
      var r := DropTrailingEmpty(p);
      assert |s| > 0 && s[0] != ' ' ==> p[0] != "" && |r| >= 1;
      r
  }

  /** The first token of `line` is `name`. */
  predicate Names(line: string, name: string)
  {
    Split(line) != [] && Split(line)[0] == name
  }

  /**
   * The tokens glue back to the line without its trailing spaces, the last
   * token is empty only when it is the whole of an empty line, and there are
   * no tokens exactly when the line is all spaces.
   */
  lemma SplitSpec(s: string)
    ensures var r := Split(s);
            && Join(r) == TrimTrailingSpaces(s)
            && (r == [] <==> s != "" && TrimTrailingSpaces(s) == "")
            && (|r| > 1 ==> r[|r| - 1] != "")
  {
    if ' ' in s {
      var p := Pieces(s);
      JoinPieces(s);
      JoinDropTrim(p);
      JoinEmpty(DropTrailingEmpty(p));
    }
  }

  lemma {:induction false} JoinPieces(s: string)
    ensures Join(Pieces(s)) == s
    decreases |s|
  {
    if s == [] {
    } else if s[0] == ' ' {
      JoinPieces(s[1..]);
      assert Pieces(s) == [""] + Pieces(s[1..]);
    } else {
      var t := Pieces(s[1..]);
      JoinPieces(s[1..]);
      var h := [s[0]] + t[0];
      assert Pieces(s) == [h] + t[1..];
      if |t| == 1 {
        assert Join(Pieces(s)) == h;
      } else {
        assert ([h] + t[1..])[1..] == t[1..];
        assert Join(Pieces(s)) == h + " " + Join(t[1..]);
      }
      assert s == [s[0]] + s[1..];
    }
  }

  lemma {:induction false} JoinSnoc(ts: seq<string>, t: string)
    requires |ts| >= 1
    ensures Join(ts + [t]) == Join(ts) + " " + t
    decreases |ts|
  {
    if |ts| == 1 {
      assert (ts + [t])[1..] == [t];
    } else {
      assert (ts + [t])[1..] == ts[1..] + [t];
      JoinSnoc(ts[1..], t);
    }
  }

  lemma JoinEmpty(ts: seq<string>)
    ensures Join(ts) == "" ==> |ts| == 0 || (|ts| == 1 && ts[0] == "")
  {
    if |ts| >= 2 {
      assert Join(ts)[|ts[0]|] == ' ';
    }
  }

  lemma {:induction false} JoinDropTrim(ts: seq<string>)
    requires |ts| >= 1
    requires forall i :: 0 <= i < |ts| ==> ' ' !in ts[i]
    ensures Join(DropTrailingEmpty(ts)) == TrimTrailingSpaces(Join(ts))
    decreases |ts|
  {
    var n := |ts|;
    if ts[n - 1] != "" {
      JoinEndsWithLast(ts);
    } else if n > 1 {
      var front := ts[..n - 1];
      assert ts == front + [""];
      JoinSnoc(front, "");
      TrimDropsSpace(Join(front));
      assert DropTrailingEmpty(ts) == DropTrailingEmpty(front);
      JoinDropTrim(front);
    }
  }

  /** A join whose last token is a nonempty, space-free string ends in that token's last character. */
  lemma JoinEndsWithLast(ts: seq<string>)
    requires |ts| >= 1
    requires ts[|ts| - 1] != "" && ' ' !in ts[|ts| - 1]
    ensures TrimTrailingSpaces(Join(ts)) == Join(ts)
  {
    var n := |ts|;
    var last := ts[n - 1];
    var j := Join(ts);
    if n >= 2 {
      var front := ts[..n - 1];
      assert ts == front + [last];
      JoinSnoc(front, last);
      assert j == (Join(front) + " ") + last;
    }
    assert j[|j| - 1] == last[|last| - 1];
    assert last[|last| - 1] in last;
  }

  lemma TrimDropsSpace(j: string)
    ensures TrimTrailingSpaces(j + " " + "") == TrimTrailingSpaces(j)
  {
    assert j + " " + "" == j + " ";
    assert (j + " ")[..|j|] == j;
  }

  lemma {:induction false} PiecesNoSpace(a: string)
    requires ' ' !in a
    ensures Pieces(a) == [a]
    decreases |a|
  {
    if a != [] {
      PiecesNoSpace(a[1..]);
      assert [a[0]] + a[1..] == a;
    }
  }

  /** Pieces distributes over a separating space. */
  lemma {:induction false} PiecesConcat(a: string, b: string)
    ensures Pieces(a + " " + b) == Pieces(a) + Pieces(b)
    decreases |a|
  {
    var s := a + " " + b;
    if a == [] {
      assert s[1..] == b;
    } else {
      assert s[1..] == a[1..] + " " + b;
      PiecesConcat(a[1..], b);
    }
  }

  /** Pieces undoes Join on space-free tokens. */
  lemma {:induction false} PiecesJoin(ts: seq<string>)
    requires |ts| >= 1
    requires forall i :: 0 <= i < |ts| ==> ' ' !in ts[i]
    ensures Pieces(Join(ts)) == ts
    decreases |ts|
  {
    if |ts| == 1 {
      PiecesNoSpace(ts[0]);
    } else {
      PiecesNoSpace(ts[0]);
      PiecesJoin(ts[1..]);
      PiecesConcat(ts[0], Join(ts[1..]));
      assert ts == [ts[0]] + ts[1..];
    }
  }

  /** Split undoes Join on space-free tokens whose last one is not empty. */
  lemma SplitJoin(ts: seq<string>)
    requires |ts| >= 1
    requires forall i :: 0 <= i < |ts| ==> ' ' !in ts[i]
    requires ts[|ts| - 1] != ""
    ensures Split(Join(ts)) == ts
  {
    var s := Join(ts);
    if |ts| == 1 {
    } else {
      assert s[|ts[0]|] == ' ';
      PiecesJoin(ts);
    }
  }

  // ---------------------------------------------------------------------------
  // Integer.parseInt and Integer.toString
  // ---------------------------------------------------------------------------

  predicate IsDigit(c: char)
  {
    '0' <= c <= '9'
  }

  predicate AllDigits(s: string)
  {
    forall i :: 0 <= i < |s| ==> IsDigit(s[i])
  }

  /** The value of a string of decimal digits. */
  function DigitsValue(s: string): nat
    requires AllDigits(s)
    decreases |s|
  {
    if s == [] then 0
    else DigitsValue(s[..|s| - 1]) * 10 + (s[|s| - 1] as int - '0' as int)
  }

  /**
   * `Integer.parseInt(s)`: an optional '-' or '+' followed by at least one
   * decimal digit, whose value fits an int; None where Java throws
   * NumberFormatException.
   */
  function ParseInt(s: string): (r: Option<int32>)
    ensures r.Some? ==> |s| > 0 && AllDigits(s[1..])
    ensures r.Some? ==> IsDigit(s[0]) || (|s| > 1 && (s[0] == '-' || s[0] == '+'))
    ensures r.Some? ==> (r.value < 0 ==> s[0] == '-')
  {
    if |s| == 0 then None
    else
      var start := if s[0] == '-' || s[0] == '+' then 1 else 0;
      var ds := s[start..];
      if |ds| == 0 || !AllDigits(ds) then None
      else
        var v: int := if s[0] == '-' then -(DigitsValue(ds) as int) else DigitsValue(ds);
        if -0x8000_0000 <= v < 0x8000_0000 then Some(v as int32) else None
  }

  function DigitChar(d: nat): (c: char)
    requires d < 10
    ensures IsDigit(c) && c as int - '0' as int == d
  {
    ('0' as int + d) as char
  }

  /** Decimal digits of k, most significant first, without leading zeros. */
  function NatToDigits(k: nat): (r: string)
    ensures |r| > 0 && AllDigits(r)
    ensures r[0] == '0' ==> k == 0
    decreases k
  {
    if k < 10 then [DigitChar(k)] else NatToDigits(k / 10) + [DigitChar(k % 10)]
  }

  /**
   * `Integer.toString(n)` (what `String.valueOf` and `println(int)` print):
   * a minus sign exactly for a negative number, then decimal digits, and
   * never a space. ParseIntToString shows it is read back as `n`.
   */
  function IntToString(n: int32): (r: string)
    ensures |r| > 0 && ' ' !in r
    ensures r[0] == '-' <==> n < 0
    ensures AllDigits(if n < 0 then r[1..] else r)
  {
    if n < 0 then
      var ds := NatToDigits(-(n as int));
      assert ("-" + ds)[1..] == ds;
      assert forall i :: 0 <= i < |ds| ==> ds[i] != ' ';
      "-" + ds
    else
      var ds := NatToDigits(n as int);
      assert forall i :: 0 <= i < |ds| ==> ds[i] != ' ';
      ds
  }

  lemma {:induction false} DigitsValueOfNat(k: nat)
    ensures DigitsValue(NatToDigits(k)) == k
    decreases k
  {
    if k >= 10 {
      DigitsValueOfNat(k / 10);
      var r := NatToDigits(k);
      assert r[..|r| - 1] == NatToDigits(k / 10);
    }
  }

  /** Parsing what Integer.toString prints gives the number back. */
  lemma ParseIntToString(n: int32)
    ensures ParseInt(IntToString(n)) == Some(n)
  {
    var s := IntToString(n);
    if n < 0 {
      var ds := NatToDigits(-(n as int));
      DigitsValueOfNat(-(n as int));
      assert s[1..] == ds;
    } else {
      DigitsValueOfNat(n as int);
    }
  }
}
