/** Round trips and identities of the string functions of module Text. */
module TextLemmas {
  import opened Wrappers
  import opened Text

  /** The digits `NatToString` writes read back as the number. */
  lemma {:induction false} NatToStringValue(n: nat)
    ensures DigitsValue(NatToString(n)) == n
    decreases n
  {
    if n >= 10 {
      var s := NatToString(n);
      NatToStringValue(n / 10);
      assert s[..|s| - 1] == NatToString(n / 10);
    }
  }

  /** `%d` output is a single non-empty field of visible characters. */
  lemma IntToStringField(n: int)
    ensures var s := IntToString(n);
            |s| >= 1 && Visible(s) && NoSpace(s) && '\n' !in s
  {
    var s := IntToString(n);
    var d := NatToString(if n < 0 then -n else n);
    assert Visible(d);
    if n < 0 {
      assert s == "-" + d;
      assert forall i :: 1 <= i < |s| ==> s[i] == d[i - 1];
    }
    assert Visible(s);
  }

  /** A visible string has no space and no newline. */
  lemma VisibleField(s: string)
    requires Visible(s)
    ensures NoSpace(s) && '\n' !in s
  {
    assert forall i :: 0 <= i < |s| ==> s[i] != ' ' && s[i] != '\n';
  }

  /** `Integer.parseInt` reads back every `int` that `%d` writes. */
  lemma ParseIntRoundTrip(n: int)
    requires IsInt32(n)
    ensures ParseInt(IntToString(n)) == Some(n)
  {
    var s := IntToString(n);
    if n < 0 {
      NatToStringValue(-n);
      assert s[1..] == NatToString(-n);
    } else {
      NatToStringValue(n);
    }
  }

  /** A string without a space is one field. */
  lemma FieldsOfField(s: string)
    requires NoSpace(s)
    ensures Fields(s) == [s]
  {
    SpaceIndexNoSpace(s);
  }

  /** A string without a space is its own first field. */
  lemma SpaceIndexNoSpace(s: string)
    requires NoSpace(s)
    ensures SpaceIndex(s) == |s|
  {
  }

  /** A string without a space is all before its first space. */
  lemma WordPrefix(s: string)
    requires NoSpace(s)
    ensures s[..SpaceIndex(s)] == s
  {
    SpaceIndexNoSpace(s);
    assert s[..|s|] == s;
  }

  /** The first space of `a + " " + b` is the one after `a` when `a` has no space. */
  lemma {:induction false} SpaceIndexPrefix(a: string, b: string)
    requires NoSpace(a)
    ensures SpaceIndex(a + " " + b) == |a|
    decreases |a|
  {
    var s := a + " " + b;
    if a != [] {
      assert s[0] == a[0] && a[0] in a;
      assert s[1..] == a[1..] + " " + b;
      assert forall k :: 0 <= k < |a[1..]| ==> a[1..][k] in a;
      SpaceIndexPrefix(a[1..], b);
    }
  }

  /** The first field of `a + " " + b` is `a` when `a` has no space. */
  lemma SpaceIndexJoin(a: string, b: string)
    requires NoSpace(a)
    ensures SpaceIndex(a + " " + b) == |a|
    ensures (a + " " + b)[..|a|] == a && (a + " " + b)[|a| + 1..] == b && (a + " " + b)[|a|..] == " " + b
  {
    SpaceIndexPrefix(a, b);
    JoinSlices(a, b);
  }

  /** The pieces of `a + " " + b` around the space after `a`. */
  lemma JoinSlices(a: string, b: string)
    ensures (a + " " + b)[..|a|] == a && (a + " " + b)[|a| + 1..] == b && (a + " " + b)[|a|..] == " " + b
  {
    var s := a + " " + b;
    assert s[..|a|] == a;
    assert s[|a| + 1..] == b;
    assert s[|a|..] == " " + b;
  }

  /** Splitting fields joined by single spaces gives the fields back. */
  lemma {:induction false} FieldsJoin(fs: seq<string>)
    requires |fs| >= 1 && forall k :: 0 <= k < |fs| ==> NoSpace(fs[k])
    ensures Fields(Join(fs)) == fs
    decreases |fs|
  {
    if |fs| == 1 {
      FieldsOfField(fs[0]);
    } else {
      var rest := fs[1..];
      var j := Join(rest);
      assert Join(fs) == fs[0] + " " + j;
      FieldsCons(fs[0], j);
      FieldsJoin(rest);
      assert fs == [fs[0]] + rest;
    }
  }

  /** A field followed by one space: the field comes off the front. */
  lemma FieldsCons(a: string, b: string)
    requires NoSpace(a)
    ensures Fields(a + " " + b) == [a] + Fields(b)
  {
    SpaceIndexJoin(a, b);
  }

  /** `split(" ")` of at least two joined fields, the last non-empty, gives the fields back. */
  lemma SplitJoin(fs: seq<string>)
    requires |fs| >= 2 && forall k :: 0 <= k < |fs| ==> NoSpace(fs[k])
    requires fs[|fs| - 1] != ""
    ensures Split(Join(fs)) == fs
  {
    FieldsJoin(fs);
    var s := Join(fs);
    SpaceIndexJoin(fs[0], Join(fs[1..]));
    assert s[|fs[0]|] == ' ';
  }

  /** `trim` removes one leading space from a field that starts and ends with a visible character. */
  lemma TrimLeadingSpace(x: string)
    requires |x| >= 1 && x[0] > ' ' && x[|x| - 1] > ' '
    ensures Trim(" " + x) == x
  {
    assert (" " + x)[1..] == x;
    assert TrimLeft(" " + x) == TrimLeft(x) == x;
    assert TrimRight(x) == x;
  }

  /** Text without a newline is left alone by `replace("\n", "")`. */
  lemma {:induction false} RemoveNoNewlines(s: string)
    requires '\n' !in s
    ensures RemoveNewlines(s) == s
    decreases |s|
  {
    if s != [] {
      RemoveNoNewlines(s[1..]);
      assert s == [s[0]] + s[1..];
    }
  }

  /** Joining visible fields: the result starts with the first field's first character and ends with the last field's last one. */
  lemma {:induction false} JoinEnds(fs: seq<string>)
    requires |fs| >= 1 && forall k :: 0 <= k < |fs| ==> |fs[k]| >= 1
    ensures var j := Join(fs);
            |j| >= 1 && j[0] == fs[0][0] && j[|j| - 1] == fs[|fs| - 1][|fs[|fs| - 1]| - 1]
    decreases |fs|
  {
    if |fs| > 1 {
      var rest := fs[1..];
      JoinEnds(rest);
      assert Join(fs) == fs[0] + " " + Join(rest);
      assert rest[|rest| - 1] == fs[|fs| - 1];
    }
  }

  /** A character other than the space that no field contains is not in the joined string. */
  lemma {:induction false} JoinAvoids(fs: seq<string>, c: char)
    requires |fs| >= 1 && c != ' ' && forall k :: 0 <= k < |fs| ==> c !in fs[k]
    ensures c !in Join(fs)
    decreases |fs|
  {
    if |fs| > 1 {
      JoinAvoids(fs[1..], c);
      assert Join(fs) == fs[0] + " " + Join(fs[1..]);
    }
  }

  /** Non-empty visible fields joined by spaces make a line that starts and ends visibly and has no newline. */
  lemma JoinedLine(fs: seq<string>)
    requires |fs| >= 1 && forall k :: 0 <= k < |fs| ==> |fs[k]| >= 1 && Visible(fs[k])
    ensures var j := Join(fs);
            |j| >= 1 && '\n' !in j && j[0] > ' ' && j[|j| - 1] > ' '
  {
    forall k | 0 <= k < |fs| ensures '\n' !in fs[k] {
      VisibleField(fs[k]);
    }
    JoinEnds(fs);
    JoinAvoids(fs, '\n');
  }
}
