/** The few-shot example messages (`create_fewshot_messages` in
    tool/vlm_curation_deprecated/async_vlm.py): one message of good examples
    and one of bad examples, each a caption followed by one image strip per
    example unit. Displaying the strips is not modelled. */
module Fewshot {
  import opened Wrappers
  import opened Messages

  const GoodCaption: string := "Few examples of good spikes"
  const BadCaption: string := "Few examples of bad spikes"

  /** The image strip of one example unit; `KeyError` when the image table
      has no row for it. */
  function ExampleImage(table: ImageTable): int -> Result<Part>
  {
    id => match Lookup(table, id)
          case None => Err(KeyError(id))
          case Some(images) => Ok(ImageUrl(images))
  }

  /** The message of one group of examples, or none for an empty group. */
  function Section(table: ImageTable, caption: string, ids: seq<int>): Result<seq<Message>>
  {
    if |ids| == 0 then Ok([])
    else match Traverse(ids, ExampleImage(table))
      case Err(e) => Err(e)
      case Ok(parts) => Ok([Human([Text(caption)] + parts)])
  }

  /** What `create_fewshot_messages` returns, or the exception it raises. */
  function FewshotMessages(table: ImageTable, goodIds: seq<int>, badIds: seq<int>): Result<seq<Message>>
  {
    match Section(table, GoodCaption, goodIds)
    case Err(e) => Err(e)
    case Ok(good) =>
      match Section(table, BadCaption, badIds)
      case Err(e) => Err(e)
      case Ok(bad) => Ok(good + bad)
  }

  /** The content of one group: the caption, then one strip per example id. */
  method ExampleContent(table: ImageTable, caption: string, ids: seq<int>) returns (r: Result<seq<Part>>)
    ensures r == Cons([Text(caption)], Traverse(ids, ExampleImage(table)))
  {
    ghost var f := ExampleImage(table);
    var content := [Text(caption)];
    ghost var parts: seq<Part> := [];
    var i := 0;
    assert ids[i..] == ids;
    ConsUnit(parts, Traverse(ids, f));
    while i < |ids|
      invariant 0 <= i <= |ids|
      invariant content == [Text(caption)] + parts
      invariant Traverse(ids, f) == Cons(parts, Traverse(ids[i..], f))
    {
      TraverseStep(ids, f, i, parts);
      var images := Lookup(table, ids[i]);
      if images.None? {
        return Err(KeyError(ids[i]));
      }
      content := content + [ImageUrl(images.value)];
      parts := parts + [ImageUrl(images.value)];
      i := i + 1;
    }
    assert ids[i..] == [];
    ConsUnit(parts, Traverse(ids, f));
    r := Ok(content);
  }

  /** `create_fewshot_messages`: the good group first, then the bad group,
      each only when it has example ids. */
  method CreateFewshotMessages(table: ImageTable, goodIds: seq<int>, badIds: seq<int>)
    returns (r: Result<seq<Message>>)
    ensures r == FewshotMessages(table, goodIds, badIds)
  {
    var fewshotContents: seq<seq<Part>> := [];
    if |goodIds| > 0 {
      var content := ExampleContent(table, GoodCaption, goodIds);
      if content.Err? {
        return Err(content.error);
      }
      fewshotContents := fewshotContents + [content.value];
    }
    ghost var good := Section(table, GoodCaption, goodIds);
    assert good.Ok? && good.value == seq(|fewshotContents|, i requires 0 <= i < |fewshotContents| => Human(fewshotContents[i]));
    if |badIds| > 0 {
      var content := ExampleContent(table, BadCaption, badIds);
      if content.Err? {
        return Err(content.error);
      }
      fewshotContents := fewshotContents + [content.value];
    }
    ghost var bad := Section(table, BadCaption, badIds);
    assert bad.Ok?;
    r := Ok(seq(|fewshotContents|, i requires 0 <= i < |fewshotContents| => Human(fewshotContents[i])));
    assert r.value == good.value + bad.value;
  }

  /** Every example id is in the image table. */
  predicate AllKnown(table: ImageTable, ids: seq<int>)
  {
    forall i :: 0 <= i < |ids| ==> Lookup(table, ids[i]).Some?
  }

  /** The group's message holds the caption, then the strip of each example
      unit's images in the order of the ids. */
  predicate IsSection(table: ImageTable, m: Message, caption: string, ids: seq<int>)
    requires AllKnown(table, ids)
  {
    && m.Human?
    && |m.content| == 1 + |ids|
    && m.content[0] == Text(caption)
    && forall k :: 0 <= k < |ids| ==> m.content[1 + k] == ImageUrl(Lookup(table, ids[k]).value)
  }

  lemma SectionContent(table: ImageTable, caption: string, ids: seq<int>)
    ensures Section(table, caption, ids).Ok? <==> AllKnown(table, ids)
    ensures Section(table, caption, ids).Ok? ==>
      |Section(table, caption, ids).value| == Count(|ids| > 0)
      && (|ids| > 0 ==> IsSection(table, Section(table, caption, ids).value[0], caption, ids))
  {
    TraverseOk(ids, ExampleImage(table));
  }

  /** The few-shot messages: none, one or two, good examples before bad
      ones; a group is present exactly when it has ids, and every example
      id must be in the image table. */
  lemma FewshotShape(table: ImageTable, goodIds: seq<int>, badIds: seq<int>)
    ensures FewshotMessages(table, goodIds, badIds).Ok? <==> AllKnown(table, goodIds) && AllKnown(table, badIds)
    ensures FewshotMessages(table, goodIds, badIds).Ok? ==>
      var ms := FewshotMessages(table, goodIds, badIds).value;
      && |ms| == Count(|goodIds| > 0) + Count(|badIds| > 0)
      && (|goodIds| > 0 ==> IsSection(table, ms[0], GoodCaption, goodIds))
      && (|badIds| > 0 ==> IsSection(table, ms[Count(|goodIds| > 0)], BadCaption, badIds))
  {
    SectionContent(table, GoodCaption, goodIds);
    SectionContent(table, BadCaption, badIds);
  }

  /** A missing good example raises before any bad example is looked up. */
  lemma MissingExampleRaises(table: ImageTable, goodIds: seq<int>, badIds: seq<int>, k: nat)
    requires k < |goodIds| && Lookup(table, goodIds[k]).None?
    requires forall j :: 0 <= j < k ==> Lookup(table, goodIds[j]).Some?
    ensures FewshotMessages(table, goodIds, badIds) == Err(KeyError(goodIds[k]))
  {
    TraverseFirstErr(goodIds, ExampleImage(table), k);
  }
}
