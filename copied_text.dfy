/**
 * The text the tracker's viewer copies and reads back: a clicked point is
 * written as two right-aligned integers, a square as four integers joined
 * by commas, and `_get_copied_display` reads the text back by removing
 * the spaces, splitting at commas and applying `int()` to each field.
 */
module CopiedText {
  import opened Wrappers
  import opened Numerics
  import opened Text
  import opened Rects

  /** The placeholder for one coordinate. */
  const Dashes: string := "----"

  /** `_last_copied` before anything is copied: "----, ----". */
  const InitialCopied: string := Dashes + ", " + Dashes

  /** The text a click copies: `f"{int(x):>4}, {int(y):>4}"`. */
  function ClickText(x: real, y: real): string
  {
    PointText(Trunc(x), Trunc(y))
  }

  /** Two integers, each right-aligned in four characters, separated by a comma and a space. */
  function PointText(i: int, j: int): string
  {
    PadLeft(IntToString(i), 4) + ", " + PadLeft(IntToString(j), 4)
  }

  /** The text a square copies: its truncated left, top, right and bottom joined by commas. */
  function BoxText(r: RectF): string
  {
    EdgesText(Trunc(r.left), Trunc(r.top), Trunc(r.Right()), Trunc(r.Bottom()))
  }

  /** `",".join(map(str, edges))` for four integer edges. */
  function EdgesText(l: int, t: int, rt: int, b: int): string
  {
    Join([IntToString(l), IntToString(t), IntToString(rt), IntToString(b)], ',')
  }

  /** The comma-separated fields of the copied text, spaces removed. */
  function CopiedFields(lastCopied: string): (parts: seq<string>)
    ensures |parts| >= 1
  {
    Split(RemoveSpaces(lastCopied), ',')
  }

  /** `int()` of each field, None where it raises. */
  function ParsedFields(parts: seq<string>): (vs: seq<Option<int>>)
    ensures |vs| == |parts|
    ensures forall i :: 0 <= i < |parts| ==> vs[i] == ParseInt(parts[i])
  {
    seq(|parts|, i requires 0 <= i < |parts| => ParseInt(parts[i]))
  }

  /** `str()` of each number. */
  function IntTexts(ns: seq<int>): (parts: seq<string>)
    ensures |parts| == |ns|
    ensures forall i :: 0 <= i < |ns| ==> parts[i] == IntToString(ns[i])
  {
    seq(|ns|, i requires 0 <= i < |ns| => IntToString(ns[i]))
  }

  /** Each number as a successful parse. */
  function Somes(ns: seq<int>): (vs: seq<Option<int>>)
  {
    seq(|ns|, i requires 0 <= i < |ns| => Some(ns[i]))
  }

  lemma SomesOfPair(i: int, j: int)
    ensures Somes([i, j]) == [Some(i), Some(j)]
  {
  }

  lemma SomesOfFour(l: int, t: int, rt: int, b: int)
    ensures Somes([l, t, rt, b]) == [Some(l), Some(t), Some(rt), Some(b)]
  {
  }

  /** Fields written by `str()` read back as the numbers they were written from. */
  lemma ParsedIntTexts(ns: seq<int>)
    ensures ParsedFields(IntTexts(ns)) == Somes(ns)
  {
    forall i | 0 <= i < |ns|
      ensures ParsedFields(IntTexts(ns))[i] == Some(ns[i])
    {
      ParseIntToString(ns[i]);
    }
  }

  /** The integer texts have no spaces and no commas. */
  lemma IntTextIsPlain(i: int)
    ensures ' ' !in IntToString(i) && ',' !in IntToString(i)
  {
  }

  /** Two padded, space- and comma-free texts split back into the two texts. */
  lemma PaddedPairFields(a: string, b: string)
    requires ' ' !in a && ',' !in a && ' ' !in b && ',' !in b
    ensures CopiedFields(PadLeft(a, 4) + ", " + PadLeft(b, 4)) == [a, b]
  {
    UnspacedPaddedPair(a, b);
    SplitPair(a, b, ',');
  }

  /** Removing the spaces of two padded texts around ", " leaves them around a bare comma. */
  lemma UnspacedPaddedPair(a: string, b: string)
    requires ' ' !in a && ' ' !in b
    ensures RemoveSpaces(PadLeft(a, 4) + ", " + PadLeft(b, 4)) == a + [','] + b
  {
    var pa, pb := PadLeft(a, 4), PadLeft(b, 4);
    RemoveSpacesConcat(pa + ", ", pb);
    RemoveSpacesConcat(pa, ", ");
    RemoveSpacesPadLeft(a, 4);
    RemoveSpacesPadLeft(b, 4);
    CommaSpaceUnspaced();
  }

  lemma CommaSpaceUnspaced()
    ensures RemoveSpaces(", ") == ","
  {
    assert ", "[..1] == ",";
    RemoveSpacesNone(",");
  }

  /** Two texts without `c`, joined by `c`, split back into the two. */
  lemma SplitPair(a: string, b: string, c: char)
    requires c !in a && c !in b
    ensures Split(a + [c] + b, c) == [a, b]
  {
    var s := a + [c] + b;
    IndexOfAfter(a, c, b);
    assert s[..|a|] == a && s[|a| + 1..] == b;
    assert IndexOf(b, c) == |b|;
  }

  /** A copied point splits into the texts of its two integers. */
  lemma PointTextSplit(i: int, j: int)
    ensures CopiedFields(PointText(i, j)) == [IntToString(i), IntToString(j)]
  {
    IntTextIsPlain(i);
    IntTextIsPlain(j);
    PaddedPairFields(IntToString(i), IntToString(j));
  }

  /** The texts of two integers parse back to them. */
  lemma ParsedPair(i: int, j: int)
    ensures ParsedFields([IntToString(i), IntToString(j)]) == [Some(i), Some(j)]
  {
    assert [IntToString(i), IntToString(j)] == IntTexts([i, j]);
    ParsedIntTexts([i, j]);
    SomesOfPair(i, j);
  }

  /** The fields of a copied point are its two integers. */
  lemma PointTextFields(i: int, j: int)
    ensures ParsedFields(CopiedFields(PointText(i, j))) == [Some(i), Some(j)]
  {
    PointTextSplit(i, j);
    ParsedPair(i, j);
  }

  /** The fields of a copied box are its four integer edges. */
  lemma EdgesTextFields(l: int, t: int, rt: int, b: int)
    ensures ParsedFields(CopiedFields(EdgesText(l, t, rt, b))) == [Some(l), Some(t), Some(rt), Some(b)]
  {
    EdgesTextSplit(l, t, rt, b);
    ParsedIntTexts([l, t, rt, b]);
    SomesOfFour(l, t, rt, b);
  }

  /** A copied box splits into the texts of its four edges. */
  lemma EdgesTextSplit(l: int, t: int, rt: int, b: int)
    ensures CopiedFields(EdgesText(l, t, rt, b)) == IntTexts([l, t, rt, b])
  {
    var parts := IntTexts([l, t, rt, b]);
    assert parts == [IntToString(l), IntToString(t), IntToString(rt), IntToString(b)];
    IntTextIsPlain(l);
    IntTextIsPlain(t);
    IntTextIsPlain(rt);
    IntTextIsPlain(b);
    JoinAvoids(parts, ',', ' ');
    RemoveSpacesNone(EdgesText(l, t, rt, b));
    SplitJoin(parts, ',');
  }

  /** The placeholder text splits into two fields, neither of which is an integer. */
  lemma InitialCopiedFields()
    ensures |ParsedFields(CopiedFields(InitialCopied))| == 2
    ensures ParsedFields(CopiedFields(InitialCopied))[0] == None
    ensures ParsedFields(CopiedFields(InitialCopied))[1] == None
  {
    InitialCopiedSplit();
    DashesNotANumber();
  }

  /** The placeholder splits into two runs of dashes. */
  lemma InitialCopiedSplit()
    ensures CopiedFields(InitialCopied) == [Dashes, Dashes]
  {
    assert PadLeft(Dashes, 4) == Dashes;
    PaddedPairFields(Dashes, Dashes);
  }

  /** A run of dashes is not a number. */
  lemma DashesNotANumber()
    ensures ParseInt(Dashes) == None
  {
    var dashes := Dashes;
    StripNoSpace(dashes);
    assert !IsDigit(dashes[1..][0]);
  }

}
