/**
 * The artboard's resume provider: the `SET_RESUME` message gate, and the loader that
 * reads the resume snapshot from local storage, checks its shape, restructures it and
 * backfills default sections and `visible` flags before installing it.
 *
 * Values are seen as JSON: a property that the loader sets on an array (which arrays
 * accept but JSON does not carry) is not part of the value.
 */
module Providers {
  import opened Wrappers
  import opened Seqs
  import opened Json
  import opened Text

  /** The 13 section keys every loaded resume ends up with. */
  const DefaultSectionKeys: seq<string> := [
    "profiles", "summary", "experience", "education", "skills", "languages", "awards",
    "certifications", "interests", "projects", "publications", "volunteer", "references"
  ]

  /** The section written for a default key whose value is falsy. */
  function DefaultSection(key: string): Json {
    JObj(map[
      "id" := JStr(key),
      "name" := JStr(Capitalize(key)),
      "visible" := JBool(true),
      "columns" := JNum(1.0),
      "separateLinks" := JBool(false),
      "items" := JArr([])
    ])
  }

  function FillDefault(m: map<string, Json>, key: string): map<string, Json> {
    if Truthy(Get(JObj(m), key)) then m else m[key := DefaultSection(key)]
  }

  /** The first loop, over `keys` in order. */
  function FillDefaults(m: map<string, Json>, keys: seq<string>): map<string, Json>
    decreases |keys|
  {
    if keys == [] then m else FillDefault(FillDefaults(m, keys[..|keys| - 1]), keys[|keys| - 1])
  }

  /** `custom` becomes `{}` when falsy. */
  function FillCustom(m: map<string, Json>): map<string, Json> {
    if Truthy(Get(JObj(m), "custom")) then m else m["custom" := JObj(map[])]
  }

  /** An item gets `visible: true` when it is a plain object whose `visible` is undefined. */
  function BackfillItem(item: Json): Json {
    if item.JObj? && IsUndefinedAt(item.fields, "visible") then JObj(item.fields["visible" := JBool(true)])
    else item
  }

  /** A plain-object section gets `visible: true` when undefined, and its array `items` are backfilled. */
  function BackfillSection(s: Json): Json {
    if !s.JObj? then s
    else
      var m := if IsUndefinedAt(s.fields, "visible") then s.fields["visible" := JBool(true)] else s.fields;
      var items := Get(JObj(m), "items");
      if Truthy(items) && items.JArr? then JObj(m["items" := JArr(Map(BackfillItem, items.items))])
      else JObj(m)
  }

  /** One step of the third loop: plain objects are backfilled; an array `custom` has its elements backfilled. */
  function ProcessSection(key: string, s: Json): Json {
    if Truthy(s) && IsObjectType(s) && !s.JArr? then BackfillSection(s)
    else if key == "custom" && Truthy(s) && IsObjectType(s) then JArr(Map(BackfillSection, s.items))
    else s
  }

  function ProcessAll(m: map<string, Json>): map<string, Json> {
    map k | k in m :: ProcessSection(k, m[k])
  }

  /**
   * The sections after the three loops, or None when the loader returns early (falsy
   * `sections`) or throws (assigning a property to a string, number or boolean).
   */
  function LoadSections(sections: Json): Option<Json> {
    if !Truthy(sections) then None
    else if sections.JObj? then Some(JObj(ProcessAll(FillCustom(FillDefaults(sections.fields, DefaultSectionKeys)))))
    else if sections.JArr? then Some(JArr(Map(BackfillSection, sections.items)))
    else None
  }

  /** Whether `basics` is lifted out of `sections`. */
  predicate LiftsBasics(p: Json) {
    Truthy(Get(Get(p, "sections"), "basics")) && !Truthy(Get(p, "basics"))
  }

  /** What the loader installs for a parsed snapshot, if anything. */
  function Transform(p: Json): Option<Json> {
    if !Get(Get(p, "metadata"), "layout").JArr? then None
    else if !LiftsBasics(p) && !Truthy(Get(p, "basics")) then None
    else
      match LoadSections(Get(p, "sections"))
      case None => None
      case Some(s) =>
        if LiftsBasics(p) then
          // `basics` and `sections.basics` are one object, so the backfill reaches both
          Some(JObj(map["basics" := Get(s, "basics"), "sections" := s, "metadata" := Get(p, "metadata")]))
        else Some(JObj(p.fields["sections" := s]))
  }

  /** What a call of the loader installs, given the stored string and a `JSON.parse` that may throw (None). */
  function Load(stored: Option<string>, parse: string -> Option<Json>): Option<Json> {
    if stored.None? || stored.value == "" then None
    else match parse(stored.value)
      case None => None
      case Some(p) => Transform(p)
  }

  /** Window events the provider listens to. */
  datatype WindowEvent = Storage(key: Option<string>) | ResumeDataUpdated | OtherEvent(name: string)

  /** A reload runs for a `storage` event on key "resume" and for every `resume-data-updated` event. */
  predicate TriggersReload(ev: WindowEvent) {
    match ev
    case Storage(key) => key == Some("resume")
    case ResumeDataUpdated => true
    case OtherEvent(_) => false
  }

  /**
   * `r` is `m` after the default loop over `keys`: every key of `keys` is truthy, a key
   * that was truthy keeps its value, a falsy or missing key of `keys` holds its default
   * section, and no other key is touched or created.
   */
  ghost predicate FilledFrom(m: map<string, Json>, keys: seq<string>, r: map<string, Json>) {
    && (forall k :: k in r <==> k in m || k in keys)
    && (forall k :: k in keys ==> k in r && Truthy(r[k]))
    && (forall k :: k in m && Truthy(m[k]) ==> k in r && r[k] == m[k])
    && (forall k :: k in m && k !in keys ==> k in r && r[k] == m[k])
    && (forall k :: k in keys && !(k in m && Truthy(m[k])) ==> k in r && r[k] == DefaultSection(k))
  }

  lemma FillDefaultStep(m: map<string, Json>, init: seq<string>, last: string, r: map<string, Json>)
    requires FilledFrom(m, init, r)
    ensures FilledFrom(m, init + [last], FillDefault(r, last))
  {
    var keys := init + [last];
    var r' := FillDefault(r, last);
    assert forall k :: k in keys <==> k in init || k == last;
    assert Truthy(DefaultSection(last));
    if Truthy(Get(JObj(r), last)) {
      assert r' == r;
    } else {
      assert r' == r[last := DefaultSection(last)];
      assert last !in init;
    }
  }

  lemma {:induction false} FillDefaultsSpec(m: map<string, Json>, keys: seq<string>)
    ensures FilledFrom(m, keys, FillDefaults(m, keys))
    decreases |keys|
  {
    if keys == [] {
    } else {
      var init := keys[..|keys| - 1];
      var last := keys[|keys| - 1];
      FillDefaultsSpec(m, init);
      assert keys == init + [last];
      FillDefaultStep(m, init, last, FillDefaults(m, init));
    }
  }

  /** A map that already holds every key of `keys`, truthy, is left as it is. */
  lemma {:induction false} FillDefaultsNoop(m: map<string, Json>, keys: seq<string>)
    requires forall k :: k in keys ==> k in m && Truthy(m[k])
    ensures FillDefaults(m, keys) == m
    decreases |keys|
  {
    if keys != [] {
      var init := keys[..|keys| - 1];
      assert forall k :: k in init ==> k in keys;
      FillDefaultsNoop(m, init);
    }
  }

  /**
   * A backfilled plain-object section: `visible` is defined, an explicit `visible`
   * (`false` included) is kept, an undefined one becomes `true`; no field other than
   * `visible` and `items` changes, and an array `items` keeps its length while each
   * plain-object item gains `visible: true` only where undefined, everything else unchanged.
   */
  lemma BackfillSectionSpec(s: Json)
    requires s.JObj?
    ensures var r := BackfillSection(s);
            && r.JObj?
            && r.fields.Keys == s.fields.Keys + {"visible"}
            && r.fields["visible"] == (if IsUndefinedAt(s.fields, "visible") then JBool(true) else s.fields["visible"])
            && (forall k :: k in s.fields && k != "visible" && k != "items" ==> r.fields[k] == s.fields[k])
            && (!Get(s, "items").JArr? ==> forall k :: k in s.fields && k != "visible" ==> r.fields[k] == s.fields[k])
            && (Get(s, "items").JArr? ==>
                  var before := s.fields["items"].items;
                  && r.fields["items"].JArr?
                  && |r.fields["items"].items| == |before|
                  && forall i :: 0 <= i < |before| ==> ItemBackfilled(before[i], r.fields["items"].items[i]))
  {
  }

  /** `after` is `before` with `visible: true` added where a plain object left it undefined. */
  predicate ItemBackfilled(before: Json, after: Json) {
    if before.JObj? then
      && after.JObj?
      && after.fields.Keys == before.fields.Keys + {"visible"}
      && after.fields["visible"] == (if IsUndefinedAt(before.fields, "visible") then JBool(true) else before.fields["visible"])
      && (forall k :: k in before.fields && k != "visible" ==> after.fields[k] == before.fields[k])
    else after == before
  }

  /**
   * The third loop per key: a plain object is backfilled, an array `custom` has its
   * plain-object elements backfilled, and anything else (an array under any other key,
   * a primitive) is left as it is. Truthiness is kept.
   */
  lemma ProcessSectionCases(key: string, s: Json)
    ensures s.JObj? ==> ProcessSection(key, s) == BackfillSection(s)
    ensures s.JArr? && key == "custom" ==>
              var r := ProcessSection(key, s);
              && r.JArr? && |r.items| == |s.items|
              && forall i :: 0 <= i < |s.items| ==>
                   (s.items[i].JObj? ==> r.items[i] == BackfillSection(s.items[i])) &&
                   (!s.items[i].JObj? ==> r.items[i] == s.items[i])
    ensures s.JArr? && key != "custom" ==> ProcessSection(key, s) == s
    ensures !s.JObj? && !s.JArr? ==> ProcessSection(key, s) == s
    ensures Truthy(ProcessSection(key, s)) == Truthy(s)
  {
  }

  /** Backfilling twice is backfilling once. */
  lemma ProcessSectionIdempotent(key: string, s: Json)
    ensures ProcessSection(key, ProcessSection(key, s)) == ProcessSection(key, s)
  {
    if s.JArr? && key == "custom" {
      var once := Map(BackfillSection, s.items);
      forall i | 0 <= i < |once| ensures BackfillSection(once[i]) == once[i] {
        BackfillSectionIdempotent(s.items[i]);
      }
    } else if s.JObj? {
      BackfillSectionIdempotent(s);
    }
  }

  lemma BackfillSectionIdempotent(s: Json)
    ensures BackfillSection(BackfillSection(s)) == BackfillSection(s)
  {
    if s.JObj? {
      var once := BackfillSection(s);
      var items := Get(once, "items");
      if items.JArr? {
        assert Map(BackfillItem, items.items) == items.items;
      }
    }
  }

  /** A default section is already backfilled. */
  lemma DefaultSectionStable(key: string)
    ensures ProcessSection(key, DefaultSection(key)) == DefaultSection(key)
  {
    assert Map(BackfillItem, []) == [];
  }

  /** The sections after the default loop and the `custom` fallback, before backfilling. */
  ghost predicate FilledWithCustom(m: map<string, Json>, keys: seq<string>, r: map<string, Json>) {
    && (forall k :: k in r <==> k in m || k in keys || k == "custom")
    && (forall k :: k in keys ==> k in r && Truthy(r[k]))
    && "custom" in r && Truthy(r["custom"])
    && (forall k :: k in m && Truthy(m[k]) ==> k in r && r[k] == m[k])
    && (forall k :: k in m && k !in keys && k != "custom" ==> k in r && r[k] == m[k])
    && (forall k :: k in keys && !(k in m && Truthy(m[k])) ==> k in r && r[k] == DefaultSection(k))
    && (!("custom" in m && Truthy(m["custom"])) ==> r["custom"] == JObj(map[]))
  }

  /** The `custom` fallback keeps everything the default loop established. */
  lemma FillCustomSpec(m: map<string, Json>, keys: seq<string>)
    requires "custom" !in keys
    ensures FilledWithCustom(m, keys, FillCustom(FillDefaults(m, keys)))
  {
    var filled := FillDefaults(m, keys);
    FillDefaultsSpec(m, keys);
    var wc := FillCustom(filled);
    assert forall k :: k in wc && k != "custom" ==> wc[k] == filled[k];
    assert "custom" in m && Truthy(m["custom"]) ==> wc["custom"] == m["custom"];
  }

  /** The three loops over a plain-object `sections`, for any list of default keys without `custom`. */
  lemma LoadObjectGeneric(m: map<string, Json>, keys: seq<string>)
    requires "custom" !in keys
    ensures var r := ProcessAll(FillCustom(FillDefaults(m, keys)));
            && (forall k :: k in r <==> k in m || k in keys || k == "custom")
            && (forall k :: k in keys ==> k in r && Truthy(r[k]))
            && "custom" in r && Truthy(r["custom"])
            && (forall k :: k in m && Truthy(m[k]) ==> k in r && r[k] == ProcessSection(k, m[k]))
            && (forall k :: k in m && k !in keys && k != "custom" ==> k in r && r[k] == ProcessSection(k, m[k]))
            && (forall k :: k in m && !Truthy(m[k]) && k !in keys && k != "custom" ==> k in r && r[k] == m[k])
            && (forall k :: k in keys && !(k in m && Truthy(m[k])) ==> k in r && r[k] == DefaultSection(k))
            && (!("custom" in m && Truthy(m["custom"])) ==> r["custom"] == JObj(map["visible" := JBool(true)]))
  {
    var wc := FillCustom(FillDefaults(m, keys));
    FillCustomSpec(m, keys);
    var r := ProcessAll(wc);
    forall k | k in keys ensures k in r && Truthy(r[k]) {
      ProcessSectionCases(k, wc[k]);
    }
    ProcessSectionCases("custom", wc["custom"]);
    forall k | k in keys && !(k in m && Truthy(m[k])) ensures k in r && r[k] == DefaultSection(k) {
      DefaultSectionStable(k);
    }
    forall k | k in m && !Truthy(m[k]) && k !in keys && k != "custom" ensures k in r && r[k] == m[k] {
      ProcessSectionCases(k, m[k]);
    }
  }

  /**
   * Loading a plain-object `sections`: the keys are the old ones, the 13 defaults and
   * `custom`; every default key and `custom` is truthy; a truthy section is only
   * backfilled, never replaced; any other falsy key keeps its value; a missing or falsy
   * default key holds its default section; a falsy `custom` becomes `{visible: true}` (created as `{}`, then backfilled as an
   * ordinary section).
   */
  lemma LoadSectionsObject(m: map<string, Json>)
    ensures LoadSections(JObj(m)).Some? && LoadSections(JObj(m)).value.JObj?
    ensures var r := LoadSections(JObj(m)).value.fields;
            && (forall k :: k in r <==> k in m || k in DefaultSectionKeys || k == "custom")
            && (forall k :: k in DefaultSectionKeys ==> k in r && Truthy(r[k]))
            && "custom" in r && Truthy(r["custom"])
            && (forall k :: k in m && Truthy(m[k]) ==> k in r && r[k] == ProcessSection(k, m[k]))
            && (forall k :: k in m && !Truthy(m[k]) && k !in DefaultSectionKeys && k != "custom" ==> k in r && r[k] == m[k])
            && (forall k :: k in DefaultSectionKeys && !(k in m && Truthy(m[k])) ==> k in r && r[k] == DefaultSection(k))
            && (!("custom" in m && Truthy(m["custom"])) ==> r["custom"] == JObj(map["visible" := JBool(true)]))
  {
    LoadObjectGeneric(m, DefaultSectionKeys);
  }

  /**
   * A plain-object `custom` is backfilled as an ordinary section, so its subsections are
   * not: here the subsection `c1` keeps no `visible` while `custom` itself gains one.
   */
  lemma ObjectCustomSubsectionsUntouched()
    ensures var sub := JObj(map["name" := JStr("Hobbies")]);
            ProcessSection("custom", JObj(map["c1" := sub])) == JObj(map["c1" := sub, "visible" := JBool(true)])
  {
  }

  /** An array `custom` (the only shape that reaches the subsection loop) has each element backfilled. */
  lemma ArrayCustomSubsectionsBackfilled()
    ensures var sub := JObj(map["name" := JStr("Hobbies")]);
            ProcessSection("custom", JArr([sub])) == JArr([JObj(map["name" := JStr("Hobbies"), "visible" := JBool(true)])])
  {
  }

  /**
   * When the loader installs something, and exactly then: the snapshot has an array
   * `metadata.layout`, a truthy `basics` or `sections.basics`, and `sections` that is an
   * object or an array (missing or falsy `sections` returns early; a string, number or
   * boolean makes the first default assignment throw).
   */
  lemma TransformSomeIff(p: Json)
    ensures Transform(p).Some? <==>
              && Get(Get(p, "metadata"), "layout").JArr?
              && (Truthy(Get(p, "basics")) || Truthy(Get(Get(p, "sections"), "basics")))
              && (Get(p, "sections").JObj? || Get(p, "sections").JArr?)
  {
    if Get(Get(p, "metadata"), "layout").JArr? && LiftsBasics(p) {
      assert Get(p, "sections").JObj?;
    }
  }

  /**
   * The installed value: without lifting, `p` with only its `sections` replaced; with
   * lifting, exactly `basics`, `sections`, `metadata`, where `basics` is the backfilled
   * `sections.basics` (one shared object).
   */
  lemma TransformShape(p: Json)
    requires Transform(p).Some?
    ensures p.JObj? && Transform(p).value.JObj?
    ensures var q := Transform(p).value.fields;
            && "sections" in q && Some(q["sections"]) == LoadSections(Get(p, "sections"))
            && (!LiftsBasics(p) ==> forall k :: k != "sections" ==> (k in q <==> k in p.fields) && (k in q ==> q[k] == p.fields[k]))
            && (LiftsBasics(p) ==>
                  && q.Keys == {"basics", "sections", "metadata"}
                  && q["metadata"] == p.fields["metadata"]
                  && q["basics"] == Get(q["sections"], "basics")
                  && q["basics"] == ProcessSection("basics", Get(Get(p, "sections"), "basics")))
  {
    if LiftsBasics(p) {
      var m := Get(p, "sections").fields;
      LoadSectionsObject(m);
      assert "basics" in m && Truthy(m["basics"]);
    }
  }

  /** Loading the value the loader installed installs that same value again. */
  lemma TransformIdempotent(p: Json)
    requires Transform(p).Some?
    ensures Transform(Transform(p).value) == Transform(p)
  {
    var q := Transform(p).value;
    TransformShape(p);
    TransformSomeIff(p);
    var sections := Get(p, "sections");
    var s := LoadSections(sections).value;
    assert q.fields["sections"] == s;
    LoadSectionsIdempotent(sections);
    if LiftsBasics(p) {
      var m := sections.fields;
      LoadSectionsObject(m);
      ProcessSectionCases("basics", m["basics"]);
      assert Truthy(Get(q, "basics"));
    }
    assert !LiftsBasics(q);
    assert q.fields["sections" := s] == q.fields;
  }

  lemma {:induction false} LoadObjectIdempotent(m: map<string, Json>, keys: seq<string>)
    requires "custom" !in keys
    ensures var r := ProcessAll(FillCustom(FillDefaults(m, keys)));
            ProcessAll(FillCustom(FillDefaults(r, keys))) == r
  {
    var wc := FillCustom(FillDefaults(m, keys));
    var r := ProcessAll(wc);
    LoadObjectGeneric(m, keys);
    FillDefaultsNoop(r, keys);
    assert FillCustom(r) == r;
    forall k | k in r ensures ProcessSection(k, r[k]) == r[k] {
      ProcessSectionIdempotent(k, wc[k]);
    }
    assert ProcessAll(r) == r;
  }

  lemma LoadSectionsIdempotent(sections: Json)
    requires LoadSections(sections).Some?
    ensures LoadSections(LoadSections(sections).value) == LoadSections(sections)
  {
    var s := LoadSections(sections).value;
    if sections.JObj? {
      LoadObjectIdempotent(sections.fields, DefaultSectionKeys);
    } else {
      forall i | 0 <= i < |sections.items| ensures BackfillSection(s.items[i]) == s.items[i] {
        BackfillSectionIdempotent(sections.items[i]);
      }
      assert Map(BackfillSection, s.items) == s.items;
    }
  }

  /** The item loop of one section. */
  method BackfillItems(items: seq<Json>) returns (r: seq<Json>)
    ensures r == Map(BackfillItem, items)
  {
    r := [];
    for i := 0 to |items|
      invariant r == Map(BackfillItem, items[..i])
    {
      var item := items[i];
      if item.JObj? && IsUndefinedAt(item.fields, "visible") {
        item := JObj(item.fields["visible" := JBool(true)]);
      }
      r := r + [item];
      assert items[..i + 1] == items[..i] + [items[i]];
    }
    assert items[..|items|] == items;
  }

  method BackfillOneSection(s: Json) returns (r: Json)
    ensures r == BackfillSection(s)
  {
    if !s.JObj? {
      return s;
    }
    var m := s.fields;
    if IsUndefinedAt(m, "visible") {
      m := m["visible" := JBool(true)];
    }
    var items := Get(JObj(m), "items");
    if Truthy(items) && items.JArr? {
      var backfilled := BackfillItems(items.items);
      m := m["items" := JArr(backfilled)];
    }
    r := JObj(m);
  }

  /** The custom-subsection loop, reached only when `custom` is an array. */
  method BackfillCustomArray(sections: seq<Json>) returns (r: seq<Json>)
    ensures r == Map(BackfillSection, sections)
  {
    r := [];
    for i := 0 to |sections|
      invariant r == Map(BackfillSection, sections[..i])
    {
      var s := BackfillOneSection(sections[i]);
      r := r + [s];
      assert sections[..i + 1] == sections[..i] + [sections[i]];
    }
    assert sections[..|sections|] == sections;
  }

  lemma FillDefaultsPrefix(m: map<string, Json>, keys: seq<string>, i: nat)
    requires i < |keys|
    ensures FillDefaults(m, keys[..i + 1]) == FillDefault(FillDefaults(m, keys[..i]), keys[i])
  {
    assert keys[..i + 1][..i] == keys[..i];
  }

  /** The default-section loop. */
  method BackfillDefaults(sections: map<string, Json>) returns (r: map<string, Json>)
    ensures r == FillDefaults(sections, DefaultSectionKeys)
  {
    var keys := DefaultSectionKeys;
    r := sections;
    for i := 0 to |keys|
      invariant r == FillDefaults(sections, keys[..i])
    {
      var key := keys[i];
      FillDefaultsPrefix(sections, keys, i);
      if !Truthy(Get(JObj(r), key)) {
        r := r[key := DefaultSection(key)];
      }
    }
    assert keys[..|keys|] == keys;
  }

  /** The loop over `Object.keys(sections)`; each step touches only its own key, so the order is immaterial. */
  method BackfillVisible(sections: map<string, Json>) returns (r: map<string, Json>)
    ensures r == ProcessAll(sections)
  {
    r := sections;
    var todo := sections.Keys;
    while todo != {}
      invariant todo <= sections.Keys && r.Keys == sections.Keys
      invariant forall k :: k in r ==> r[k] == (if k in todo then sections[k] else ProcessSection(k, sections[k]))
      decreases todo
    {
      var k :| k in todo;
      var section := r[k];
      if Truthy(section) && IsObjectType(section) && !section.JArr? {
        section := BackfillOneSection(section);
      } else if k == "custom" && Truthy(section) && IsObjectType(section) {
        var elements := BackfillCustomArray(section.items);
        section := JArr(elements);
      }
      r := r[k := section];
      todo := todo - {k};
    }
  }

  /** The artboard store's resume, as the provider sees it. */
  class Artboard {
    const ownOrigin: string
    var resume: Option<Json>
    /** How many times `setResume` has been called. */
    var installs: nat

    constructor (ownOrigin: string)
      ensures this.ownOrigin == ownOrigin && resume == None && installs == 0
    {
      this.ownOrigin := ownOrigin;
      resume := None;
      installs := 0;
    }

    /** The window `message` listener: only the own origin may install a resume, and only with `SET_RESUME`. */
    method HandleMessage(origin: string, data: Json)
      modifies this
      ensures origin == ownOrigin && TypeOf(data) == "SET_RESUME" ==>
                resume == Some(Get(data, "payload")) && installs == old(installs) + 1
      ensures !(origin == ownOrigin && TypeOf(data) == "SET_RESUME") ==>
                resume == old(resume) && installs == old(installs)
    {
      if origin != ownOrigin {
        return;
      }
      if TypeOf(data) == "SET_RESUME" {
        resume := Some(Get(data, "payload"));
        installs := installs + 1;
      }
    }

    /** `loadResumeData`: installs `Load(stored, parse)` once when there is one, else changes nothing. */
    method LoadResumeData(stored: Option<string>, parse: string -> Option<Json>)
      modifies this
      ensures Load(stored, parse).Some? ==> resume == Load(stored, parse) && installs == old(installs) + 1
      ensures Load(stored, parse).None? ==> resume == old(resume) && installs == old(installs)
    {
      if stored.None? || stored.value == "" {
        return;
      }
      var parsed := parse(stored.value);
      if parsed.None? {
        return;
      }
      var p := parsed.value;
      if !Get(Get(p, "metadata"), "layout").JArr? {
        return;
      }
      var data := p;
      var lift := LiftsBasics(p);
      if lift {
        data := JObj(map["basics" := Get(Get(p, "sections"), "basics"), "sections" := Get(p, "sections"),
                         "metadata" := Get(p, "metadata")]);
      } else if !Truthy(Get(p, "basics")) {
        return;
      }
      var sections := Get(data, "sections");
      if !Truthy(sections) {
        return;
      }
      var result: Json;
      if sections.JObj? {
        var m := BackfillDefaults(sections.fields);
        if !Truthy(Get(JObj(m), "custom")) {
          m := m["custom" := JObj(map[])];
        }
        m := BackfillVisible(m);
        result := JObj(m);
      } else if sections.JArr? {
        var elements := BackfillCustomArray(sections.items);
        result := JArr(elements);
      } else {
        // a default key cannot be assigned on a string, number or boolean: the loader throws
        return;
      }
      if lift {
        data := JObj(map["basics" := Get(result, "basics"), "sections" := result, "metadata" := Get(p, "metadata")]);
      } else {
        data := JObj(p.fields["sections" := result]);
      }
      resume := Some(data);
      installs := installs + 1;
    }

    /** The `storage` and `resume-data-updated` listeners. */
    method OnWindowEvent(ev: WindowEvent, stored: Option<string>, parse: string -> Option<Json>)
      modifies this
      ensures TriggersReload(ev) && Load(stored, parse).Some? ==>
                resume == Load(stored, parse) && installs == old(installs) + 1
      ensures !TriggersReload(ev) || Load(stored, parse).None? ==>
                resume == old(resume) && installs == old(installs)
    {
      if TriggersReload(ev) {
        LoadResumeData(stored, parse);
      }
    }
  }
}
