/** The breadcrumb trail: the path's non-empty segments, one crumb per
    segment linking to the path up to it, and a readable label per segment.

    `decodeURIComponent` is a parameter (None when it throws on a malformed
    escape); the product shown on a product page is the last one loaded. */
module Breadcrumb {
  import opened Common

  /** `decodeURIComponent`: the decoded text, or None when it throws. */
  type Decoder = string -> Option<string>

  /** `.filter(Boolean)` on strings: the non-empty ones, in order. */
  function NonEmpty(parts: seq<string>): (r: seq<string>)
    ensures Subseq(r, parts)
    ensures forall k :: 0 <= k < |r| ==> r[k] != ""
    ensures forall x :: x in parts && x != "" ==> x in r
    ensures forall x :: multiset(r)[x] == if x != "" then multiset(parts)[x] else 0
  {
    if parts == [] then []
    else
      var rest := NonEmpty(parts[1..]);
      assert parts == [parts[0]] + parts[1..];
      if parts[0] != "" then
        assert ([parts[0]] + rest)[1..] == rest;
        [parts[0]] + rest
      else rest
  }

  lemma {:induction false} NonEmptyKeeps(parts: seq<string>)
    requires forall k :: 0 <= k < |parts| ==> parts[k] != ""
    ensures NonEmpty(parts) == parts
    decreases |parts|
  {
    if parts != [] {
      NonEmptyKeeps(parts[1..]);
      assert [parts[0]] + parts[1..] == parts;
    }
  }

  /** `pathname.split("/").filter(Boolean)`. */
  function Segments(path: string): (segs: seq<string>)
    ensures forall k :: 0 <= k < |segs| ==> segs[k] != "" && '/' !in segs[k]
  {
    var pieces := Split(path, '/');
    SubseqMembers(NonEmpty(pieces), pieces);
    assert forall k :: 0 <= k < |NonEmpty(pieces)| ==> NonEmpty(pieces)[k] in pieces;
    NonEmpty(pieces)
  }

  /** A well-formed segment: non-empty and free of '/'. */
  predicate Proper(segs: seq<string>) {
    forall k :: 0 <= k < |segs| ==> segs[k] != "" && '/' !in segs[k]
  }

  /** The path `/s1/s2/.../sn` splits back into its segments. */
  lemma SegmentsOfPath(segs: seq<string>)
    requires Proper(segs)
    ensures Segments("/" + Join(segs, "/")) == segs
  {
    if segs == [] {
      assert "/" + Join(segs, "/") == "" + ['/'] + "";
      SplitAfterPiece("", "", '/');
      assert Split("/", '/') == ["", ""];
    } else {
      var parts := [""] + segs;
      assert parts[1..] == segs;
      assert Join(parts, "/") == "/" + Join(segs, "/");
      SplitJoin(parts, '/');
      NonEmptyKeeps(segs);
    }
  }

  /** `buildPath(index)`: "/" followed by the first `index + 1` segments
      joined with "/". */
  function BuildPath(segs: seq<string>, index: int): string {
    "/" + Join(JsSlice(segs, 0, index + 1), "/")
  }

  /** Each crumb's path is the previous crumb's path extended by one segment,
      so every crumb's path is a prefix of the next one's. */
  lemma BuildPathExtends(segs: seq<string>, i: nat)
    requires i + 1 < |segs|
    ensures BuildPath(segs, i + 1) == BuildPath(segs, i) + "/" + segs[i + 1]
  {
    assert JsSlice(segs, 0, i + 2) == segs[..i + 1] + [segs[i + 1]];
    JoinSnoc(segs[..i + 1], segs[i + 1], "/");
  }

  /** Following a crumb leads to a path whose segments are exactly the
      segments up to that crumb. */
  lemma BuildPathSegments(segs: seq<string>, i: nat)
    requires Proper(segs) && i < |segs|
    ensures Segments(BuildPath(segs, i)) == segs[..i + 1]
  {
    assert JsSlice(segs, 0, i + 1) == segs[..i + 1];
    SegmentsOfPath(segs[..i + 1]);
  }

  /** `\w` of regular expressions. */
  predicate IsWordChar(c: char) {
    'a' <= c <= 'z' || 'A' <= c <= 'Z' || '0' <= c <= '9' || c == '_'
  }

  /** Position `i` begins a word: `\b\w` matches there. */
  predicate WordStart(s: string, i: int)
    requires 0 <= i < |s|
  {
    IsWordChar(s[i]) && (i == 0 || !IsWordChar(s[i - 1]))
  }

  /** `.replace(/-/g, " ")`. */
  function Dashes(s: string): (r: string)
    ensures |r| == |s|
  {
    seq(|s|, i requires 0 <= i < |s| => if s[i] == '-' then ' ' else s[i])
  }

  /** `.replace(/\b\w/g, c => c.toUpperCase())`. */
  function TitleCase(s: string): (r: string)
    ensures |r| == |s|
  {
    seq(|s|, i requires 0 <= i < |s| => if WordStart(s, i) then UpperChar(s[i]) else s[i])
  }

  /** The label of an ordinary segment: no dash survives, every word starts
      with a character that is not a lower-case letter, and every other
      character is the decoded segment's own. */
  lemma LabelShape(decoded: string)
    ensures var d := Dashes(decoded); var l := TitleCase(d);
      && |l| == |decoded|
      && (forall i :: 0 <= i < |l| ==> l[i] != '-')
      && (forall i :: 0 <= i < |l| && WordStart(d, i) ==> !('a' <= l[i] <= 'z'))
      && (forall i :: 0 <= i < |l| && !WordStart(d, i) ==>
            l[i] == (if decoded[i] == '-' then ' ' else decoded[i]))
  {
  }

  /** Interpolation of a product field. None stands for a field absent from
      the server's JSON, as everywhere in `Product`, and renders as
      "undefined"; an explicit JSON null, which would render as "null", is not
      told apart from absence. */
  function ShowField(o: Option<string>): string {
    if o.Some? then o.value else "undefined"
  }

  /** `formatSegment(segment, index)`: "product" gets the empty label; the
      segment after "product" gets "brand / model" once a product is loaded;
      any other segment is decoded, its dashes become spaces and its words are
      capitalised. None when decoding throws. */
  function FormatSegment(segs: seq<string>, index: nat, product: Option<Product>,
                         decode: Decoder): (text: Option<string>)
    requires index < |segs|
    ensures segs[index] == "product" ==> text == Some("")
    ensures segs[index] != "product" && index > 0 && segs[index - 1] == "product" && product.Some? ==>
      text == Some(ShowField(product.value.brand) + " / " + ShowField(product.value.model))
    ensures segs[index] != "product" && !(index > 0 && segs[index - 1] == "product" && product.Some?) ==>
      text == (if decode(segs[index]).Some? then Some(TitleCase(Dashes(decode(segs[index]).value))) else None)
  {
    var segment := segs[index];
    if segment == "product" then Some("")
    else if index > 0 && segs[index - 1] == "product" && product.Some? then
      Some(ShowField(product.value.brand) + " / " + ShowField(product.value.model))
    else
      match decode(segment)
      case None => None
      case Some(d) => Some(TitleCase(Dashes(d)))
  }

  /** `indexOf`: the first position of `x`, or -1. */
  function IndexOf(segs: seq<string>, x: string): (r: int)
    ensures -1 <= r < |segs|
    ensures r == -1 <==> x !in segs
    ensures r >= 0 ==> segs[r] == x && x !in segs[..r]
  {
    if segs == [] then -1
    else if segs[0] == x then 0
    else
      var r := IndexOf(segs[1..], x);
      assert segs[1..][..if r >= 0 then r else 0] == segs[1..if r >= 0 then r + 1 else 1];
      if r == -1 then -1 else r + 1
  }

  /** The product to load: the segment after the first "product", if there
      is a non-empty one. */
  function ProductToLoad(segs: seq<string>): (id: Option<string>)
    ensures id.Some? <==>
      "product" in segs && IndexOf(segs, "product") + 1 < |segs| && segs[IndexOf(segs, "product") + 1] != ""
    ensures id.Some? ==> id.value == segs[IndexOf(segs, "product") + 1]
  {
    var i := IndexOf(segs, "product");
    if i != -1 && i + 1 < |segs| && segs[i + 1] != "" then Some(segs[i + 1]) else None
  }

  /** A product is loaded exactly when a "product" segment is followed by
      another segment, and the one after the first "product" is used. */
  lemma ProductToLoadSpec(path: string)
    ensures var segs := Segments(path); var id := ProductToLoad(segs);
      && (id.Some? <==> exists i :: 0 <= i < |segs| - 1 && segs[i] == "product" && "product" !in segs[..i])
      && (id.Some? ==> forall i :: 0 <= i < |segs| && segs[i] == "product" && "product" !in segs[..i] ==>
                         i + 1 < |segs| && id.value == segs[i + 1])
  {
    var segs := Segments(path);
    var k := IndexOf(segs, "product");
    if k >= 0 {
      // the first "product" is the only one with no "product" before it
      assert forall i :: 0 <= i < |segs| && segs[i] == "product" && "product" !in segs[..i] ==> i == k;
      if k + 1 < |segs| {
        assert segs[k + 1] != "" && ProductToLoad(segs) == Some(segs[k + 1]);
      }
    }
  }

  /** One crumb: its label and, for every crumb but the last, its link. */
  datatype Crumb = Crumb(caption: Option<string>, link: Option<string>)

  function Crumbs(segs: seq<string>, product: Option<Product>, decode: Decoder)
    : (r: seq<Crumb>)
    ensures |r| == |segs|
    ensures forall i :: 0 <= i < |segs| ==> r[i].caption == FormatSegment(segs, i, product, decode)
    ensures forall i :: 0 <= i < |segs| ==>
      r[i].link == if i == |segs| - 1 then None else Some(BuildPath(segs, i))
  {
    seq(|segs|, i requires 0 <= i < |segs| =>
      Crumb(FormatSegment(segs, i, product, decode),
            if i == |segs| - 1 then None else Some(BuildPath(segs, i))))
  }

  /** Only the last crumb is plain text; each link extends the one before it. */
  lemma CrumbsSpec(path: string, product: Option<Product>, decode: Decoder)
    ensures var segs := Segments(path); var r := Crumbs(segs, product, decode);
      && (forall i :: 0 <= i < |r| ==> (r[i].link.None? <==> i == |r| - 1))
      && (forall i :: 0 <= i < |r| - 1 ==> Segments(r[i].link.value) == segs[..i + 1])
  {
    var segs := Segments(path);
    forall i | 0 <= i < |segs| - 1 ensures Segments(BuildPath(segs, i)) == segs[..i + 1] {
      BuildPathSegments(segs, i);
    }
  }
}
