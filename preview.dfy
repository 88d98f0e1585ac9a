/**
 * The preview page of the artboard (the page the printer captures): a stricter layout
 * normaliser and the numbered list of pages it renders.
 */
module Preview {
  import opened Wrappers
  import opened Seqs
  import opened Json
  import Builder

  /** First filter: strings, and non-null objects with both `id` and `visible`, where `visible === true`. */
  predicate Shown(e: Json) {
    match e
    case JStr(_) => true
    case JObj(m) => "id" in m && "visible" in m && m["visible"] == JBool(true)
    case _ => false
  }

  /** The map: strings pass through, objects with an `id` key give that value, anything else null. */
  function Resolve(e: Json): Json {
    match e
    case JStr(_) => e
    case JObj(m) => if "id" in m then m["id"] else JNull
    case _ => JNull
  }

  /** Final filter: `item !== null && item !== undefined` (non-string ids survive). */
  predicate NotNullish(v: Json) {
    v != JNull && v != JUndefined
  }

  function NormalizeColumn(col: Json): seq<Json> {
    if col.JArr? then Filter(NotNullish, Map(Resolve, Filter(Shown, col.items))) else []
  }

  function NormalizePage(page: Json): seq<seq<Json>> {
    if page.JArr? then
      seq(|page.items|, i requires 0 <= i < |page.items| => NormalizeColumn(page.items[i]))
    else []
  }

  /** `transformedLayout` of the preview page; total, no input makes it throw. */
  function Normalize(layout: Json): seq<seq<seq<Json>>> {
    if layout.JArr? then
      seq(|layout.items|, i requires 0 <= i < |layout.items| => NormalizePage(layout.items[i]))
    else []
  }

  /** One entry on its own: what it contributes to the output column, if anything. */
  function EntryValue(e: Json): Option<Json> {
    match e
    case JStr(_) => Some(e)
    case JObj(m) =>
      if "id" in m && "visible" in m && m["visible"] == JBool(true) && NotNullish(m["id"])
      then Some(m["id"]) else None
    case _ => None
  }

  function EntryValues(items: seq<Json>): seq<Json> {
    if items == [] then []
    else (match EntryValue(items[0]) case Some(v) => [v] case None => []) + EntryValues(items[1..])
  }

  lemma {:induction false} ChainIsEntryWise(items: seq<Json>)
    ensures Filter(NotNullish, Map(Resolve, Filter(Shown, items))) == EntryValues(items)
  {
    if items != [] {
      ChainIsEntryWise(items[1..]);
      var e := items[0];
      if Shown(e) {
        assert Filter(Shown, items) == [e] + Filter(Shown, items[1..]);
        var rest := Map(Resolve, Filter(Shown, items[1..]));
        assert Map(Resolve, [e] + Filter(Shown, items[1..])) == [Resolve(e)] + rest;
        assert ([Resolve(e)] + rest)[1..] == rest;
      }
    }
  }

  /**
   * Shape: no layout yields no pages; otherwise one page per input page and one column per
   * input column; strings stay as they are and in order; an object entry survives iff
   * `visible === true` and its `id` is neither null nor undefined.
   */
  lemma NormalizeSpec(layout: Json)
    ensures !layout.JArr? ==> Normalize(layout) == []
    ensures layout.JArr? ==> |Normalize(layout)| == |layout.items|
    ensures layout.JArr? ==> forall i :: 0 <= i < |layout.items| ==>
              |Normalize(layout)[i]| == (if layout.items[i].JArr? then |layout.items[i].items| else 0)
    ensures layout.JArr? ==> forall i, j ::
              (0 <= i < |layout.items| && layout.items[i].JArr? && 0 <= j < |layout.items[i].items|) ==>
              Normalize(layout)[i][j] ==
                (var col := layout.items[i].items[j]; if col.JArr? then EntryValues(col.items) else [])
  {
    if layout.JArr? {
      forall i, j | 0 <= i < |layout.items| && layout.items[i].JArr? && 0 <= j < |layout.items[i].items|
        ensures Normalize(layout)[i][j] ==
                (var col := layout.items[i].items[j]; if col.JArr? then EntryValues(col.items) else [])
      {
        var col := layout.items[i].items[j];
        if col.JArr? {
          ChainIsEntryWise(col.items);
        }
      }
    }
  }

  /** A truthy `visible` that is not `true` (here: 1) keeps an entry in the builder but not here. */
  lemma TruthyVisibleDiffers()
    ensures var e := JObj(map["id" := JStr("skills"), "visible" := JNum(1.0)]);
            Builder.NormalizeColumn(JArr([e])) == ["skills"] && NormalizeColumn(JArr([e])) == []
  {
    var e := JObj(map["id" := JStr("skills"), "visible" := JNum(1.0)]);
    Builder.ObjectEntrySurvives(map["id" := JStr("skills"), "visible" := JNum(1.0)]);
    ChainIsEntryWise([e]);
    assert [e][1..] == [];
  }

  /** Every object entry that has an `id` has a string one. */
  predicate IdsAreStrings(items: seq<Json>) {
    forall e :: e in items && e.JObj? && "id" in e.fields ==> e.fields["id"].JStr?
  }

  lemma {:induction false} EntryWiseSubsequence(items: seq<Json>)
    requires IdsAreStrings(items)
    ensures IsSubsequence(EntryValues(items), Map(k => JStr(k), Builder.EntryKeys(items)))
  {
    if items != [] {
      EntryWiseSubsequence(items[1..]);
      var e := items[0];
      var tailB := Map(k => JStr(k), Builder.EntryKeys(items[1..]));
      var tailP := EntryValues(items[1..]);
      var key := Builder.EntryKey(e);
      if key.Some? {
        var k := key.value;
        assert Builder.EntryKeys(items) == [k] + Builder.EntryKeys(items[1..]);
        assert Map(k => JStr(k), Builder.EntryKeys(items)) == [JStr(k)] + tailB;
        var val := EntryValue(e);
        if val.Some? {
          assert val.value == JStr(k);
          assert EntryValues(items) == [JStr(k)] + tailP;
          assert ([JStr(k)] + tailP)[1..] == tailP && ([JStr(k)] + tailB)[1..] == tailB;
        } else {
          assert EntryValues(items) == tailP;
          SubsequenceWeaken(tailP, tailB, JStr(k));
        }
      } else {
        assert EntryValue(e) == None;
        assert Builder.EntryKeys(items) == Builder.EntryKeys(items[1..]);
        assert EntryValues(items) == tailP;
      }
    }
  }

  /**
   * Where object ids are strings, the preview keeps a subsequence of what the builder keeps:
   * `visible === true` is stricter than a truthy `visible`, and the rest of the chain agrees.
   */
  lemma PreviewColumnWithinBuilder(items: seq<Json>)
    requires JNull !in items && IdsAreStrings(items)
    ensures IsSubsequence(NormalizeColumn(JArr(items)),
                          Map(k => JStr(k), Builder.NormalizeColumn(JArr(items))))
  {
    ChainIsEntryWise(items);
    Builder.ChainIsEntryWise(items);
    EntryWiseSubsequence(items);
  }

  /** What `<Page>` receives for one normalised page. */
  datatype PageProps<T> = PageProps(pageNumber: nat, isFirstPage: bool, columns: T)

  /** The pages rendered, in order: numbered from 1, only the first flagged as first. */
  function RenderPages<T>(layout: seq<T>): (r: seq<PageProps<T>>)
    ensures |r| == |layout|
    ensures forall i :: 0 <= i < |r| ==>
              r[i].pageNumber == i + 1 && (r[i].isFirstPage <==> i == 0) && r[i].columns == layout[i]
  {
    seq(|layout|, i requires 0 <= i < |layout| => PageProps(i + 1, i == 0, layout[i]))
  }

  /** A non-empty layout has exactly one first page, page 1, and no page number is used twice. */
  lemma OneFirstPage<T>(layout: seq<T>)
    ensures var r := RenderPages(layout);
      && (layout != [] ==> r[0].isFirstPage && r[0].pageNumber == 1)
      && (forall i, j :: 0 <= i < |r| && 0 <= j < |r| && r[i].isFirstPage && r[j].isFirstPage ==> i == j)
      && (forall i, j :: 0 <= i < j < |r| ==> r[i].pageNumber != r[j].pageNumber)
  {
  }

  /** The `data-page` numbers on the preview are exactly 1..n, each used once. */
  lemma PageNumbersAreOneToN<T>(layout: seq<T>)
    ensures forall k :: k in PageNumbers(layout) <==> 1 <= k <= |layout|
  {
    var r := RenderPages(layout);
    forall k | 1 <= k <= |layout| ensures k in PageNumbers(layout) {
      assert r[k - 1].pageNumber == k;
    }
  }

  function PageNumbers<T>(layout: seq<T>): set<nat> {
    var r := RenderPages(layout);
    set i | 0 <= i < |r| :: r[i].pageNumber
  }
}
