/**
 * `StoreTomeRequest::prepareForValidation`: before validation, four reference fields
 * (`author`, `current_owner`, `language`, `last_known_location`) may hold either a record's
 * UUID or its name. Each one that resolves to a record sets the matching `*_id` field to
 * that record's id; anything else leaves the input as it was.
 */
module StoreTome {
  import opened Wrappers
  import opened Text
  import opened JsonValue

  // ---------------------------------------------------------------------------
  // The UUID shape

  /** The character classes of the UUID pattern, each matched without regard to case (`/i`). */
  datatype CharClass = Hex | Dash | Version | Variant

  predicate Accepts(k: CharClass, c: char)
  {
    var l := Lower(c);
    match k
    case Hex => '0' <= l <= '9' || 'a' <= l <= 'f'
    case Dash => l == '-'
    case Version => '1' <= l <= '5'
    case Variant => l == '8' || l == '9' || l == 'a' || l == 'b'
  }

  /**
   * The class the pattern `^[0-9a-f]{8}-[0-9a-f]{4}-[1-5][0-9a-f]{3}-[89ab][0-9a-f]{3}-[0-9a-f]{12}$`
   * expects at position `i` of its 36 characters.
   */
  function ClassAt(i: nat): CharClass
  {
    if i == 8 || i == 13 || i == 18 || i == 23 then Dash
    else if i == 14 then Version
    else if i == 19 then Variant
    else Hex
  }

  /**
   * The whole string has the shape (the anchors leave no room for anything else; `$`
   * could also accept a final line feed, but the value is trimmed first).
   */
  predicate IsUuid(s: string)
  {
    |s| == 36 && forall i :: 0 <= i < |s| ==> Accepts(ClassAt(i), s[i])
  }

  /** 36 characters: dashes at 8, 13, 18 and 23, the version digit at 14 and the variant at 19. */
  lemma UuidLayout(s: string)
    requires IsUuid(s)
    ensures |s| == 36
    ensures s[8] == '-' && s[13] == '-' && s[18] == '-' && s[23] == '-'
    ensures '1' <= s[14] <= '5'
    ensures Lower(s[19]) in {'8', '9', 'a', 'b'}
    ensures AllHex(s[..8]) && AllHex(s[9..13]) && AllHex(s[15..18]) && AllHex(s[20..23]) && AllHex(s[24..])
  {
    forall i | 0 <= i < 36 && i !in {8, 13, 14, 18, 19, 23} ensures Accepts(Hex, s[i]) {
      assert Accepts(ClassAt(i), s[i]);
    }
    assert Accepts(ClassAt(8), s[8]) && Accepts(ClassAt(13), s[13]) && Accepts(ClassAt(18), s[18]);
    assert Accepts(ClassAt(23), s[23]) && Accepts(ClassAt(14), s[14]) && Accepts(ClassAt(19), s[19]);
  }

  /** Case does not matter: a string has the shape exactly when its lower-case form does. */
  lemma UuidIgnoresCase(s: string)
    ensures IsUuid(s) <==> IsUuid(LowerStr(s))
  {
    var l := LowerStr(s);
    forall i | 0 <= i < |s| ensures Accepts(ClassAt(i), s[i]) <==> Accepts(ClassAt(i), l[i]) {
      assert Lower(l[i]) == Lower(s[i]);
    }
  }

  predicate AllHex(s: string)
  {
    forall i :: 0 <= i < |s| ==> Accepts(Hex, s[i])
  }

  /**
   * Conversely, five hex groups of 8, 4, 4, 4 and 12 digits in either case, joined by
   * dashes, with a version digit 1 to 5 and a variant digit 8, 9, a or b, have the shape.
   */
  lemma UuidFromGroups(a: string, b: string, v: char, c: string, w: char, d: string, e: string)
    requires |a| == 8 && |b| == 4 && |c| == 3 && |d| == 3 && |e| == 12
    requires AllHex(a) && AllHex(b) && AllHex(c) && AllHex(d) && AllHex(e)
    requires Accepts(Version, v) && Accepts(Variant, w)
    ensures IsUuid(a + "-" + b + "-" + [v] + c + "-" + [w] + d + "-" + e)
  {
    var s := a + "-" + b + "-" + [v] + c + "-" + [w] + d + "-" + e;
    forall i | 0 <= i < 36 ensures Accepts(ClassAt(i), s[i]) {
      if i < 8 { assert s[i] == a[i]; }
      else if i < 13 && i != 8 { assert s[i] == b[i - 9]; }
      else if 14 < i < 18 { assert s[i] == c[i - 15]; }
      else if 19 < i < 23 { assert s[i] == d[i - 20]; }
      else if i > 23 { assert s[i] == e[i - 24]; }
    }
  }

  /** The nil UUID and a version 7 UUID are refused: the version digit must be 1 to 5. */
  lemma UuidVersionChecked()
    ensures !IsUuid("00000000-0000-0000-0000-000000000000")
    ensures !IsUuid("018f2504-4f89-71d3-9a0c-0305e82c3301")
  {
    assert !Accepts(ClassAt(14), "00000000-0000-0000-0000-000000000000"[14]);
    assert !Accepts(ClassAt(14), "018f2504-4f89-71d3-9a0c-0305e82c3301"[14]);
  }

  // ---------------------------------------------------------------------------
  // The records a reference may name

  /** A `Character`, `Language` or `Location` row, as far as the lookup reads it. */
  datatype Record = Record(id: string, name: string)

  /** `$modelClass::find($value)`: the record whose key equals the value. */
  function FindById(records: seq<Record>, id: string): (r: Option<string>)
    ensures r.Some? <==> exists i :: 0 <= i < |records| && records[i].id == id
    ensures r.Some? ==> r.value == id
  {
    if records == [] then None
    else if records[0].id == id then Some(id)
    else FindById(records[1..], id)
  }

  /**
   * `whereRaw('LOWER(name) = ?', [strtolower($value)])->first()`: the id of the first record,
   * in table order, whose lower-cased name equals the lower-cased value.
   */
  function FirstByName(records: seq<Record>, lowered: string): (r: Option<string>)
    ensures r.None? <==> forall i :: 0 <= i < |records| ==> LowerStr(records[i].name) != lowered
    ensures r.Some? ==> exists i :: 0 <= i < |records| && LowerStr(records[i].name) == lowered && records[i].id == r.value
  {
    if records == [] then None
    else if LowerStr(records[0].name) == lowered then Some(records[0].id)
    else
      var rest := FirstByName(records[1..], lowered);
      assert forall i :: 1 <= i < |records| ==> records[i] == records[1..][i - 1];
      rest
  }

  /** The lookup `resolveSmartId` makes for a trimmed, non-empty value. */
  function Lookup(records: seq<Record>, value: string): Option<string>
  {
    if IsUuid(value) then FindById(records, value) else FirstByName(records, LowerStr(value))
  }

  /** The three tables the four references point into. */
  datatype ModelClass = CharacterModel | LanguageModel | LocationModel

  datatype Catalog = Catalog(characters: seq<Record>, languages: seq<Record>, locations: seq<Record>)
  {
    function Records(m: ModelClass): seq<Record>
    {
      match m
      case CharacterModel => characters
      case LanguageModel => languages
      case LocationModel => locations
    }
  }

  /** One `resolveSmartId($inputKey, $modelClass, $targetKey)` call. */
  datatype SmartId = SmartId(inputKey: string, model: ModelClass, targetKey: string)

  /** The calls `prepareForValidation` makes, in order. */
  const SmartIds: seq<SmartId> := [
    SmartId("author", CharacterModel, "author_id"),
    SmartId("current_owner", CharacterModel, "current_owner_id"),
    SmartId("language", LanguageModel, "language_id"),
    SmartId("last_known_location", LocationModel, "last_known_location_id")
  ]

  /**
   * The id a reference resolves to: nothing when the key is absent, the value is not a
   * string or it is blank once trimmed; otherwise the result of the lookup on the trimmed
   * value, which may find nothing.
   */
  function Resolution(input: map<string, Json>, p: SmartId, catalog: Catalog): (found: Option<string>)
    ensures found.Some? ==>
              && p.inputKey in input && input[p.inputKey].JStr? && Trim(input[p.inputKey].s) != []
              && found == Lookup(catalog.Records(p.model), Trim(input[p.inputKey].s))
    ensures p.inputKey !in input || !input[p.inputKey].JStr? || Trim(input[p.inputKey].s) == [] ==> found.None?
    ensures p.inputKey in input && input[p.inputKey].JStr? && Trim(input[p.inputKey].s) != [] ==>
              found == Lookup(catalog.Records(p.model), Trim(input[p.inputKey].s))
  {
    if p.inputKey !in input then None
    else match input[p.inputKey]
      case JStr(value) =>
        var trimmed := Trim(value);
        if trimmed == [] then None else Lookup(catalog.Records(p.model), trimmed)
      case _ => None
  }

  /** What `merge` adds for a reference: the target key with the found id, or nothing. */
  function Merged(input: map<string, Json>, p: SmartId, catalog: Catalog): (m: map<string, Json>)
    ensures m.Keys <= {p.targetKey}
  {
    match Resolution(input, p, catalog)
    case Some(id) => map[p.targetKey := JStr(id)]
    case None => map[]
  }

  /** The input after the calls in `ps`, made one after another. */
  function ResolveAll(input: map<string, Json>, ps: seq<SmartId>, catalog: Catalog): map<string, Json>
    decreases |ps|
  {
    if ps == [] then input else ResolveAll(input + Merged(input, ps[0], catalog), ps[1..], catalog)
  }

  // ---------------------------------------------------------------------------
  // The request

  class StoreTomeRequest {
    /** The request input, as `merge` changes it. */
    var input: map<string, Json>

    constructor(input: map<string, Json>)
      ensures this.input == input
    {
      this.input := input;
    }

    /** `resolveSmartId`: merge the found id under the target key, or leave the input alone. */
    method ResolveSmartId(p: SmartId, catalog: Catalog)
      modifies this
      ensures input == old(input) + Merged(old(input), p, catalog)
    {
      ghost var before := input;
      if p.inputKey !in input {
        assert Merged(before, p, catalog) == map[];
        assert before + map[] == before;
        return;
      }
      var value := input[p.inputKey];
      if !value.JStr? || Trim(value.s) == [] {
        assert Merged(before, p, catalog) == map[];
        assert before + map[] == before;
        return;
      }
      var sanitized := Trim(value.s);
      var records := catalog.Records(p.model);
      var record := Lookup(records, sanitized);
      assert record == Resolution(before, p, catalog);
      if record.Some? {
        input := input + map[p.targetKey := JStr(record.value)];
      } else {
        assert before + map[] == before;
      }
    }

    /** `prepareForValidation`: the four references, in order. */
    method PrepareForValidation(catalog: Catalog)
      modifies this
      ensures input == ResolveAll(old(input), SmartIds, catalog)
    {
      ghost var ps := SmartIds;
      ghost var before := input;
      ResolveSmartId(SmartIds[0], catalog);
      assert ResolveAll(before, ps, catalog) == ResolveAll(input, ps[1..], catalog);
      ResolveSmartId(SmartIds[1], catalog);
      ResolveSmartId(SmartIds[2], catalog);
      ResolveSmartId(SmartIds[3], catalog);
      assert ps[1..][1..][1..][1..] == [];
    }
  }

  // ---------------------------------------------------------------------------
  // Properties of the resolution

  /**
   * `merge` sets the target key to the found id and touches nothing else; when nothing is
   * found the input stays exactly as it was, and no error is raised.
   */
  lemma ResolveTouchesOnlyTarget(input: map<string, Json>, p: SmartId, catalog: Catalog)
    ensures var after := input + Merged(input, p, catalog);
            && after.Keys <= input.Keys + {p.targetKey}
            && (forall k :: k in input && k != p.targetKey ==> k in after && after[k] == input[k])
            && (Resolution(input, p, catalog).None? ==> after == input)
            && (Resolution(input, p, catalog).Some? ==>
                  p.targetKey in after && after[p.targetKey] == JStr(Resolution(input, p, catalog).value))
  {
    if Resolution(input, p, catalog).None? {
      assert input + map[] == input;
    }
  }

  /**
   * A name is matched whatever its case and surrounding blanks: two values that agree once
   * trimmed and lower-cased, and are not UUIDs, resolve to the same record.
   */
  lemma NameLookupIgnoresCase(records: seq<Record>, a: string, b: string)
    requires LowerStr(Trim(a)) == LowerStr(Trim(b))
    requires !IsUuid(Trim(a))
    ensures !IsUuid(Trim(b))
    ensures Lookup(records, Trim(a)) == Lookup(records, Trim(b))
  {
    UuidIgnoresCase(Trim(a));
    UuidIgnoresCase(Trim(b));
  }

  /** A UUID-shaped value is only ever looked up by id, even when some record bears it as a name. */
  lemma UuidNotMatchedByName(records: seq<Record>, value: string)
    requires IsUuid(value)
    requires forall i :: 0 <= i < |records| ==> records[i].id != value
    ensures Lookup(records, value).None?
  {
  }

  /** The keys the calls of `ps` read. */
  function Sources(ps: seq<SmartId>): set<string>
  {
    if ps == [] then {} else {ps[0].inputKey} + Sources(ps[1..])
  }

  /** The keys the calls of `ps` may write. */
  function Targets(ps: seq<SmartId>): set<string>
  {
    if ps == [] then {} else {ps[0].targetKey} + Targets(ps[1..])
  }

  /** Two inputs agree on every key of `keys`: both lack it, or both hold the same value. */
  predicate AgreeOn(x: map<string, Json>, y: map<string, Json>, keys: set<string>)
  {
    forall k :: k in keys ==> (k in x <==> k in y) && (k in x ==> x[k] == y[k])
  }

  /** Everything the calls of `ps` add, later calls winning. */
  function MergedAll(input: map<string, Json>, ps: seq<SmartId>, catalog: Catalog): (m: map<string, Json>)
    ensures m.Keys <= Targets(ps)
  {
    if ps == [] then map[] else Merged(input, ps[0], catalog) + MergedAll(input, ps[1..], catalog)
  }

  /** What a call adds depends only on the key it reads. */
  lemma MergedReadsSource(x: map<string, Json>, y: map<string, Json>, p: SmartId, catalog: Catalog)
    requires AgreeOn(x, y, {p.inputKey})
    ensures Merged(x, p, catalog) == Merged(y, p, catalog)
  {
    assert p.inputKey in {p.inputKey};
  }

  /** What the calls add depends only on the keys they read. */
  lemma {:induction false} MergedAllReadsSources(x: map<string, Json>, y: map<string, Json>, ps: seq<SmartId>, catalog: Catalog)
    requires AgreeOn(x, y, Sources(ps))
    ensures MergedAll(x, ps, catalog) == MergedAll(y, ps, catalog)
    decreases |ps|
  {
    if ps != [] {
      MergedReadsSource(x, y, ps[0], catalog);
      MergedAllReadsSources(x, y, ps[1..], catalog);
    }
  }

  /** Adding keys nobody reads leaves every source as it was. */
  lemma SourcesKept(x: map<string, Json>, m: map<string, Json>, sources: set<string>)
    requires m.Keys !! sources
    ensures AgreeOn(x, x + m, sources)
  {
  }

  lemma MergeAssociates(x: map<string, Json>, a: map<string, Json>, b: map<string, Json>)
    ensures x + a + b == x + (a + b)
  {
  }

  /**
   * Made one after another, calls whose targets are never read add to the input exactly
   * what each would add to the original input.
   */
  lemma {:induction false} ResolveAllIsMerge(input: map<string, Json>, ps: seq<SmartId>, catalog: Catalog)
    requires Targets(ps) !! Sources(ps)
    ensures ResolveAll(input, ps, catalog) == input + MergedAll(input, ps, catalog)
    decreases |ps|
  {
    if ps != [] {
      var m0 := Merged(input, ps[0], catalog);
      var next := input + m0;
      ResolveAllIsMerge(next, ps[1..], catalog);
      SourcesKept(input, m0, Sources(ps[1..]));
      MergedAllReadsSources(next, input, ps[1..], catalog);
      MergeAssociates(input, m0, MergedAll(input, ps[1..], catalog));
    }
  }

  /** The four targets. */
  const IdKeys: set<string> := {"author_id", "current_owner_id", "language_id", "last_known_location_id"}

  lemma SmartIdKeys()
    ensures Targets(SmartIds) == IdKeys
    ensures Sources(SmartIds) == {"author", "current_owner", "language", "last_known_location"}
    ensures IdKeys !! Sources(SmartIds)
  {
    assert SmartIds[1..][1..][1..][1..] == [];
  }

  /** Only the targets of the calls can change. */
  lemma ResolveAllKeepsOthers(input: map<string, Json>, ps: seq<SmartId>, catalog: Catalog)
    requires Targets(ps) !! Sources(ps)
    ensures forall k :: k !in Targets(ps) ==> AgreeOn(input, ResolveAll(input, ps, catalog), {k})
  {
    ResolveAllIsMerge(input, ps, catalog);
  }

  /** Running the calls a second time changes nothing: what they read, they never write. */
  lemma ResolveAllIdempotent(input: map<string, Json>, ps: seq<SmartId>, catalog: Catalog)
    requires Targets(ps) !! Sources(ps)
    ensures ResolveAll(ResolveAll(input, ps, catalog), ps, catalog) == ResolveAll(input, ps, catalog)
  {
    var m := MergedAll(input, ps, catalog);
    ResolveAllIsMerge(input, ps, catalog);
    var once := input + m;
    ResolveAllIsMerge(once, ps, catalog);
    SourcesKept(input, m, Sources(ps));
    MergedAllReadsSources(once, input, ps, catalog);
    assert once + m == once;
  }

  /** `prepareForValidation` changes no key but the four `*_id` targets; the references themselves stay. */
  lemma PrepareTouchesOnlyTargets(input: map<string, Json>, catalog: Catalog)
    ensures forall k :: k !in IdKeys ==> AgreeOn(input, ResolveAll(input, SmartIds, catalog), {k})
  {
    SmartIdKeys();
    ResolveAllKeepsOthers(input, SmartIds, catalog);
  }

  /** Preparing an already prepared input changes nothing. */
  lemma PrepareIdempotent(input: map<string, Json>, catalog: Catalog)
    ensures var once := ResolveAll(input, SmartIds, catalog);
            ResolveAll(once, SmartIds, catalog) == once
  {
    SmartIdKeys();
    ResolveAllIdempotent(input, SmartIds, catalog);
  }
}
