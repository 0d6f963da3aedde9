/** Chat messages as they are handed to the model, and the tables indexed by
    unit id that the pipeline reads images and quality metrics from. */
module Messages {
  import opened Wrappers

  /** One encoded plot of a unit (base64 JPEG text); its pixels are opaque. */
  datatype Image = Encoded(payload: string)

  /** One element of a message's content list. `ImageUrl(images)` is the data
      URL of the strip that `concat_images_horizontally(images)` produces. */
  datatype Part = Text(text: string) | ImageUrl(images: seq<Image>)

  /** A system message rendered from a prompt template, or a human message. */
  datatype Message = System(text: string) | Human(content: seq<Part>)

  /** One row of a data frame indexed by unit id. */
  datatype Row<T> = Row(unitId: int, data: T)

  /** One quality metric of a unit; `value` is its rendered text. */
  datatype Metric = Metric(name: string, value: string)

  /** The image table: per unit, one encoded image per requested modality. */
  type ImageTable = seq<Row<seq<Image>>>

  /** The quality-metrics table: per unit, its named metrics. */
  type MetricsTable = seq<Row<seq<Metric>>>

  function UnitIds<T>(rows: seq<Row<T>>): (ids: seq<int>)
    ensures |ids| == |rows|
    ensures forall i :: 0 <= i < |rows| ==> ids[i] == rows[i].unitId
  {
    seq(|rows|, i requires 0 <= i < |rows| => rows[i].unitId)
  }

  /** `df.loc[id]`: the data of the first row labelled `id`, or nothing when
      no row carries that label (pandas raises `KeyError`). */
  function Lookup<T>(rows: seq<Row<T>>, id: int): (r: Option<T>)
    ensures r.None? <==> forall i :: 0 <= i < |rows| ==> rows[i].unitId != id
    ensures r.Some? ==> exists i :: 0 <= i < |rows| && rows[i].unitId == id && rows[i].data == r.value
  {
    if rows == [] then None
    else if rows[0].unitId == id then Some(rows[0].data)
    else
      var r := Lookup(rows[1..], id);
      assert forall i :: 1 <= i < |rows| ==> rows[i] == rows[1..][i - 1];
      r
  }

  /** In a table whose index labels are distinct, looking up the label of a
      row yields that row. */
  lemma {:induction false} LookupDistinct<T>(rows: seq<Row<T>>, k: nat)
    requires k < |rows|
    requires forall i, j :: 0 <= i < j < |rows| ==> rows[i].unitId != rows[j].unitId
    ensures Lookup(rows, rows[k].unitId) == Some(rows[k].data)
  {
    if k > 0 {
      assert rows[1..][k - 1] == rows[k];
      LookupDistinct(rows[1..], k - 1);
    }
  }
}
