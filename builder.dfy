/**
 * The builder page of the artboard: its layout normaliser (a filter/map/filter chain over
 * the stored `metadata.layout`) and the control-message handler that drives the canvas.
 */
module Builder {
  import opened Wrappers
  import opened Seqs
  import opened Json
  import opened Text

  type Column = seq<string>
  type Page = seq<Column>
  type Layout = seq<Page>

  // ---------------------------------------------------------------------------------------
  // Layout normaliser

  /**
   * A `null` entry makes `"visible" in section` throw, since `typeof null` is "object".
   * The normaliser is only specified for layouts whose array columns hold no `null`.
   */
  predicate NoNullEntry(col: Json) {
    col.JArr? ==> JNull !in col.items
  }

  predicate PageHasNoNull(page: Json) {
    page.JArr? ==> forall c :: c in page.items ==> NoNullEntry(c)
  }

  predicate LayoutHasNoNull(layout: Json) {
    layout.JArr? ==> forall p :: p in layout.items ==> PageHasNoNull(p)
  }

  /** First filter: strings, and objects that have a `visible` key with a truthy value. */
  predicate Shown(e: Json) {
    match e
    case JStr(_) => true
    case JObj(m) => "visible" in m && Truthy(m["visible"])
    case _ => false
  }

  /** The map: strings pass through, objects with an `id` key give that value, anything else null. */
  function Resolve(e: Json): Json {
    match e
    case JStr(_) => e
    case JObj(m) => if "id" in m then m["id"] else JNull
    case _ => JNull
  }

  predicate IsString(e: Json) {
    e.JStr?
  }

  function AsJson(k: string): Json {
    JStr(k)
  }

  /** Final filter: `typeof item === "string"`; exactly the string entries are kept, in order. */
  function KeepStrings(s: seq<Json>): (r: seq<string>)
    ensures Map(AsJson, r) == Filter(IsString, s)
  {
    if s == [] then []
    else if s[0].JStr? then [s[0].s] + KeepStrings(s[1..])
    else KeepStrings(s[1..])
  }

  function NormalizeColumn(col: Json): Column
    requires NoNullEntry(col)
  {
    if col.JArr? then KeepStrings(Map(Resolve, Filter(Shown, col.items))) else []
  }

  function NormalizePage(page: Json): Page
    requires PageHasNoNull(page)
  {
    if page.JArr? then
      seq(|page.items|, i requires 0 <= i < |page.items| => NormalizeColumn(page.items[i]))
    else []
  }

  /** `transformedLayout` of the builder page. */
  function Normalize(layout: Json): Layout
    requires LayoutHasNoNull(layout)
  {
    if layout.JArr? then
      seq(|layout.items|, i requires 0 <= i < |layout.items| => NormalizePage(layout.items[i]))
    else []
  }

  /** One entry on its own: what it contributes to the output column, if anything. */
  function EntryKey(e: Json): Option<string> {
    match e
    case JStr(s) => Some(s)
    case JObj(m) =>
      if "visible" in m && Truthy(m["visible"]) && "id" in m && m["id"].JStr? then Some(m["id"].s)
      else None
    case _ => None
  }

  /** Reference definition of a column: entry by entry, in order. */
  function EntryKeys(items: seq<Json>): seq<string> {
    if items == [] then []
    else (match EntryKey(items[0]) case Some(k) => [k] case None => []) + EntryKeys(items[1..])
  }

  /** The filter/map/filter chain keeps exactly the entries whose own key survives, in order. */
  lemma {:induction false} ChainIsEntryWise(items: seq<Json>)
    ensures KeepStrings(Map(Resolve, Filter(Shown, items))) == EntryKeys(items)
  {
    if items != [] {
      ChainIsEntryWise(items[1..]);
      var e := items[0];
      if Shown(e) {
        assert Filter(Shown, items) == [e] + Filter(Shown, items[1..]);
        var rest := Map(Resolve, Filter(Shown, items[1..]));
        assert Map(Resolve, [e] + Filter(Shown, items[1..])) == [Resolve(e)] + rest;
        assert ([Resolve(e)] + rest)[1..] == rest;
      }
    }
  }

  lemma {:induction false} EntryKeysAllStrings(keys: seq<string>)
    ensures EntryKeys(Map(k => JStr(k), keys)) == keys
  {
    if keys != [] {
      var js := Map(k => JStr(k), keys);
      assert js[1..] == Map(k => JStr(k), keys[1..]);
      EntryKeysAllStrings(keys[1..]);
    }
  }

  lemma {:induction false} EntryKeysLength(items: seq<Json>)
    ensures |EntryKeys(items)| <= |items|
  {
    if items != [] {
      EntryKeysLength(items[1..]);
    }
  }

  /** A column equals its per-entry reference definition; it never grows; its strings stay. */
  lemma NormalizeColumnSpec(items: seq<Json>)
    requires JNull !in items
    ensures NormalizeColumn(JArr(items)) == EntryKeys(items)
    ensures |NormalizeColumn(JArr(items))| <= |items|
    ensures (forall i :: 0 <= i < |items| ==> items[i].JStr?) ==>
              NormalizeColumn(JArr(items)) == seq(|items|, i requires 0 <= i < |items| => items[i].s)
  {
    ChainIsEntryWise(items);
    EntryKeysLength(items);
    if forall i :: 0 <= i < |items| ==> items[i].JStr? {
      var keys := seq(|items|, i requires 0 <= i < |items| => items[i].s);
      assert items == Map(k => JStr(k), keys);
      EntryKeysAllStrings(keys);
    }
  }

  /** An object entry survives iff it has a truthy `visible` key and a string `id`. */
  lemma ObjectEntrySurvives(m: map<string, Json>)
    ensures NormalizeColumn(JArr([JObj(m)])) ==
            (if "visible" in m && Truthy(m["visible"]) && "id" in m && m["id"].JStr? then [m["id"].s] else [])
  {
    ChainIsEntryWise([JObj(m)]);
    assert [JObj(m)][1..] == [];
  }

  /**
   * Shape preservation: no layout yields no pages; otherwise one page per input page and one
   * column per input column, with non-arrays degrading to empty lists (no padding, no truncation).
   */
  lemma NormalizeShape(layout: Json)
    requires LayoutHasNoNull(layout)
    ensures !layout.JArr? ==> Normalize(layout) == []
    ensures layout.JArr? ==> |Normalize(layout)| == |layout.items|
    ensures layout.JArr? ==> forall i :: 0 <= i < |layout.items| ==>
              |Normalize(layout)[i]| == (if layout.items[i].JArr? then |layout.items[i].items| else 0)
    ensures layout.JArr? ==> forall i, j ::
              (0 <= i < |layout.items| && layout.items[i].JArr? && 0 <= j < |layout.items[i].items| &&
               !layout.items[i].items[j].JArr?) ==> Normalize(layout)[i][j] == []
  {
  }

  /** A string-only layout, written back as JSON. */
  function ToJson(l: Layout): (j: Json)
    ensures j.JArr? && |j.items| == |l|
  {
    JArr(seq(|l|, i requires 0 <= i < |l| =>
      JArr(seq(|l[i]|, c requires 0 <= c < |l[i]| =>
        JArr(seq(|l[i][c]|, k requires 0 <= k < |l[i][c]| => JStr(l[i][c][k])))))))
  }

  /** Normalising an already string-only layout returns it unchanged. */
  lemma NormalizeStringLayout(l: Layout)
    ensures LayoutHasNoNull(ToJson(l))
    ensures Normalize(ToJson(l)) == l
  {
    var j := ToJson(l);
    forall i | 0 <= i < |l| ensures Normalize(j)[i] == l[i] {
      var page := j.items[i];
      forall c | 0 <= c < |l[i]| ensures NormalizeColumn(page.items[c]) == l[i][c] {
        var items := page.items[c].items;
        NormalizeColumnSpec(items);
      }
    }
  }

  /** Idempotence: a second pass over the (re-encoded) output changes nothing. */
  lemma NormalizeIdempotent(layout: Json)
    requires LayoutHasNoNull(layout)
    ensures LayoutHasNoNull(ToJson(Normalize(layout)))
    ensures Normalize(ToJson(Normalize(layout))) == Normalize(layout)
  {
    NormalizeStringLayout(Normalize(layout));
  }

  // ---------------------------------------------------------------------------------------
  // Control messages

  /**
   * `isAllowedOrigin`: the page's own origin; any origin mentioning "localhost" when the page
   * itself runs on localhost; any origin starting with http(s)://localhost.
   */
  predicate IsAllowedOrigin(origin: string, ownOrigin: string, hostname: string) {
    || origin == ownOrigin
    || (hostname == "localhost" && Contains(origin, "localhost"))
    || StartsWith(origin, "http://localhost")
    || StartsWith(origin, "https://localhost")
  }

  /** An origin that never mentions "localhost" is accepted only when it is the page's own. */
  lemma NonLocalOriginNeedsSameOrigin(origin: string, ownOrigin: string, hostname: string)
    ensures !Contains(origin, "localhost") ==>
              (IsAllowedOrigin(origin, ownOrigin, hostname) <==> origin == ownOrigin)
  {
    assert "http://localhost" == "http://" + "localhost";
    assert "https://localhost" == "https://" + "localhost";
    if StartsWith(origin, "http://localhost") {
      StartsWithContains(origin, "http://", "localhost");
    }
    if StartsWith(origin, "https://localhost") {
      StartsWithContains(origin, "https://", "localhost");
    }
  }

  /** Calls made on the zoom/pan canvas. */
  datatype TransformCall =
    | ZoomIn(step: real)
    | ZoomOut(step: real)
    | CenterView(scale: Option<real>, animationTime: Option<real>)
    | ResetTransform(resetTime: real)

  /** The canvas calls a message type asks for (the deferred re-centre of RESET_VIEW included). */
  function CanvasCalls(msgType: string): seq<TransformCall> {
    if msgType == "ZOOM_IN" then [ZoomIn(0.2)]
    else if msgType == "ZOOM_OUT" then [ZoomOut(0.2)]
    else if msgType == "CENTER_VIEW" then [CenterView(None, None)]
    else if msgType == "RESET_VIEW" then [ResetTransform(0.0), CenterView(Some(0.8), Some(0.0))]
    else []
  }

  /** The builder page's message-driven state. */
  class BuilderView {
    /** `wheelPanning`; it holds whatever `panMode` the last accepted toggle carried. */
    var wheelPanning: Json
    /** The calls made on the canvas so far, in order. */
    var canvasCalls: seq<TransformCall>
    const ownOrigin: string
    const hostname: string

    constructor(ownOrigin: string, hostname: string)
      ensures wheelPanning == JBool(true) && canvasCalls == []
      ensures this.ownOrigin == ownOrigin && this.hostname == hostname
    {
      this.ownOrigin := ownOrigin;
      this.hostname := hostname;
      wheelPanning := JBool(true);
      canvasCalls := [];
    }

    /** `handleMessage`: rejected origins change nothing; only TOGGLE_PAN_MODE sets `wheelPanning`. */
    method HandleMessage(origin: string, data: Json)
      modifies this
      ensures !IsAllowedOrigin(origin, ownOrigin, hostname) ==>
                wheelPanning == old(wheelPanning) && canvasCalls == old(canvasCalls)
      ensures IsAllowedOrigin(origin, ownOrigin, hostname) ==>
                canvasCalls == old(canvasCalls) + CanvasCalls(TypeOf(data))
      ensures wheelPanning ==
                if IsAllowedOrigin(origin, ownOrigin, hostname) && TypeOf(data) == "TOGGLE_PAN_MODE"
                then Get(data, "panMode") else old(wheelPanning)
    {
      if !IsAllowedOrigin(origin, ownOrigin, hostname) {
        return;
      }
      var t := TypeOf(data);
      if t == "ZOOM_IN" { canvasCalls := canvasCalls + [ZoomIn(0.2)]; }
      if t == "ZOOM_OUT" { canvasCalls := canvasCalls + [ZoomOut(0.2)]; }
      if t == "CENTER_VIEW" { canvasCalls := canvasCalls + [CenterView(None, None)]; }
      if t == "RESET_VIEW" {
        canvasCalls := canvasCalls + [ResetTransform(0.0)];
        canvasCalls := canvasCalls + [CenterView(Some(0.8), Some(0.0))];
      }
      if t == "TOGGLE_PAN_MODE" {
        wheelPanning := Get(data, "panMode");
      }
    }
  }
}
