/** The ClinicalTrials.gov connector (`ClinicalTrialsNode`): from the tool
    parameters to the API v2.0 query parameters, the knowledge-base cache
    key, the normalised study records and the reply. */
module ClinicalTrials {
  import opened Outcomes
  import opened PyText
  import opened Json
  import opened Seqs
  import opened Connectors
  import Sorting

  const BaseUrl := "https://clinicaltrials.gov/api/v2/studies"

  // ---------------------------------------------------------------------------
  // Enum normalisation (`_map_recruitment_status`, `_map_study_phase`,
  // `_map_study_type`)
  // ---------------------------------------------------------------------------

  const StatusTable: map<string, string> := map[
    "recruiting" := "RECRUITING",
    "not_yet_recruiting" := "NOT_YET_RECRUITING",
    "active_not_recruiting" := "ACTIVE_NOT_RECRUITING",
    "completed" := "COMPLETED",
    "suspended" := "SUSPENDED",
    "terminated" := "TERMINATED",
    "withdrawn" := "WITHDRAWN",
    "available" := "AVAILABLE",
    "no_longer_available" := "NO_LONGER_AVAILABLE",
    "temporarily_not_available" := "TEMPORARILY_NOT_AVAILABLE",
    "approved_for_marketing" := "APPROVED_FOR_MARKETING",
    "withheld" := "WITHHELD",
    "unknown" := "UNKNOWN"
  ]

  const PhaseTable: map<string, string> := map[
    "early_phase_1" := "EARLY_PHASE1",
    "early_phase1" := "EARLY_PHASE1",
    "phase_1" := "PHASE1",
    "phase1" := "PHASE1",
    "phase_2" := "PHASE2",
    "phase2" := "PHASE2",
    "phase_3" := "PHASE3",
    "phase3" := "PHASE3",
    "phase_4" := "PHASE4",
    "phase4" := "PHASE4",
    "na" := "NA",
    "not_applicable" := "NA"
  ]

  const TypeTable: map<string, string> := map[
    "interventional" := "INTERVENTIONAL",
    "observational" := "OBSERVATIONAL",
    "expanded_access" := "EXPANDED_ACCESS"
  ]

  /** Every value of the status table is an upper-case API enum. */
  lemma StatusTableUppercase()
    ensures forall k :: k in StatusTable ==> HasNoLowercase(StatusTable[k])
  {
    StatusEnumsUpper();
  }

  lemma StatusEnumsUpper()
    ensures HasNoLowercase("RECRUITING") && HasNoLowercase("NOT_YET_RECRUITING")
    ensures HasNoLowercase("ACTIVE_NOT_RECRUITING") && HasNoLowercase("COMPLETED")
    ensures HasNoLowercase("SUSPENDED") && HasNoLowercase("TERMINATED") && HasNoLowercase("WITHDRAWN")
    ensures HasNoLowercase("UNKNOWN") && HasNoLowercase("WITHHELD")
    ensures HasNoLowercase("AVAILABLE") && HasNoLowercase("NO_LONGER_AVAILABLE")
    ensures HasNoLowercase("TEMPORARILY_NOT_AVAILABLE") && HasNoLowercase("APPROVED_FOR_MARKETING")
  {
    LiveStatusesUpper();
    ClosedStatusesUpper();
    AccessStatusesUpper();
  }

  lemma LiveStatusesUpper()
    ensures HasNoLowercase("RECRUITING") && HasNoLowercase("NOT_YET_RECRUITING")
    ensures HasNoLowercase("ACTIVE_NOT_RECRUITING") && HasNoLowercase("COMPLETED")
  {
  }

  lemma ClosedStatusesUpper()
    ensures HasNoLowercase("SUSPENDED") && HasNoLowercase("TERMINATED") && HasNoLowercase("WITHDRAWN")
    ensures HasNoLowercase("UNKNOWN") && HasNoLowercase("WITHHELD")
  {
  }

  lemma AccessStatusesUpper()
    ensures HasNoLowercase("AVAILABLE") && HasNoLowercase("NO_LONGER_AVAILABLE")
    ensures HasNoLowercase("TEMPORARILY_NOT_AVAILABLE") && HasNoLowercase("APPROVED_FOR_MARKETING")
  {
  }

  /** Every value of the phase table is an upper-case API enum. */
  lemma PhaseTableUppercase()
    ensures forall k :: k in PhaseTable ==> HasNoLowercase(PhaseTable[k])
  {
    assert HasNoLowercase("EARLY_PHASE1");
    assert HasNoLowercase("NA");
    assert HasNoLowercase("PHASE1");
    assert HasNoLowercase("PHASE2");
    assert HasNoLowercase("PHASE3");
    assert HasNoLowercase("PHASE4");
  }

  /** Every value of the study-type table is an upper-case API enum. */
  lemma TypeTableUppercase()
    ensures forall k :: k in TypeTable ==> HasNoLowercase(TypeTable[k])
  {
    assert HasNoLowercase("EXPANDED_ACCESS");
    assert HasNoLowercase("INTERVENTIONAL");
    assert HasNoLowercase("OBSERVATIONAL");
  }

  /** `status.lower().replace(" ", "_").replace(",", "")`. */
  function StatusKey(status: string): string
  {
    ReplaceAll(ReplaceAll(Lower(status), " ", "_"), ",", "")
  }

  /** `phase.lower().replace(" ", "_").replace("-", "_")`. */
  function PhaseKey(phase: string): string
  {
    ReplaceAll(ReplaceAll(Lower(phase), " ", "_"), "-", "_")
  }

  /** `study_type.lower().replace(" ", "_")`. */
  function TypeKey(studyType: string): string
  {
    ReplaceAll(Lower(studyType), " ", "_")
  }

  /** `status_mapping.get(status_lower, status.upper())`. */
  function MapRecruitmentStatus(status: string): (r: string)
    ensures HasNoLowercase(r)
  {
    StatusTableUppercase();
    var key := StatusKey(status);
    if key in StatusTable then StatusTable[key] else Upper(status)
  }

  /** `phase_mapping.get(phase_lower, phase.upper())`. */
  function MapStudyPhase(phase: string): (r: string)
    ensures HasNoLowercase(r)
  {
    PhaseTableUppercase();
    var key := PhaseKey(phase);
    if key in PhaseTable then PhaseTable[key] else Upper(phase)
  }

  /** `type_mapping.get(type_lower, study_type.upper())`. */
  function MapStudyType(studyType: string): (r: string)
    ensures HasNoLowercase(r)
  {
    TypeTableUppercase();
    var key := TypeKey(studyType);
    if key in TypeTable then TypeTable[key] else Upper(studyType)
  }

  /** The normalised status key has no spaces and no commas left. */
  lemma StatusKeyNormalised(status: string)
    ensures ' ' !in StatusKey(status) && ',' !in StatusKey(status)
  {
    var a := ReplaceAll(Lower(status), " ", "_");
    ReplaceCharRemoves(Lower(status), ' ', "_");
    ReplaceCharRemoves(a, ',', "");
    ReplaceCharKeepsOthers(a, ',', "", ' ');
  }

  /** The normalised phase key has no spaces and no hyphens left. */
  lemma PhaseKeyNormalised(phase: string)
    ensures ' ' !in PhaseKey(phase) && '-' !in PhaseKey(phase)
  {
    var a := ReplaceAll(Lower(phase), " ", "_");
    ReplaceCharRemoves(Lower(phase), ' ', "_");
    ReplaceCharRemoves(a, '-', "_");
    ReplaceCharKeepsOthers(a, '-', "_", ' ');
  }

  /** The three normalisations ignore letter case, in the table and out of it. */
  lemma MappingsIgnoreCase(s: string, t: string)
    requires Lower(s) == Lower(t)
    ensures MapRecruitmentStatus(s) == MapRecruitmentStatus(t)
    ensures MapStudyPhase(s) == MapStudyPhase(t)
    ensures MapStudyType(s) == MapStudyType(t)
  {
    UpperIgnoresCase(s, t);
  }

  /** Values outside the tables are echoed upper-cased. */
  lemma UnknownValuesEcho(s: string)
    ensures StatusKey(s) !in StatusTable ==> MapRecruitmentStatus(s) == Upper(s)
    ensures PhaseKey(s) !in PhaseTable ==> MapStudyPhase(s) == Upper(s)
    ensures TypeKey(s) !in TypeTable ==> MapStudyType(s) == Upper(s)
  {
  }

  // The worked examples below name their input through a precondition so
  // that the verifier reasons about the replacements symbolically.

  lemma StatusExampleLower(s: string)
    requires s == "Active, not recruiting"
    ensures Lower(s) == "active" + [','] + [' '] + "not" + [' '] + "recruiting"
  {
  }

  lemma StatusExampleSpaces(s: string)
    requires s == "Active, not recruiting"
    ensures ReplaceAll(Lower(s), " ", "_") == "active" + [','] + ("_" + "not" + "_" + "recruiting")
  {
    StatusExampleLower(s);
    ReplaceCharTwice("active" + [','], "not", "recruiting", ' ', "_");
  }

  lemma StatusExampleKey(s: string)
    requires s == "Active, not recruiting"
    ensures StatusKey(s) == "active_not_recruiting"
  {
    StatusExampleSpaces(s);
    ReplaceCharOnce("active", "_" + "not" + "_" + "recruiting", ',', "");
  }

  /** "Active, not recruiting" loses its comma and maps to its enum. */
  lemma StatusExample(s: string)
    requires s == "Active, not recruiting"
    ensures MapRecruitmentStatus(s) == "ACTIVE_NOT_RECRUITING"
  {
    StatusExampleKey(s);
  }

  /** "Phase 1" is matched through its normalised key "phase_1". */
  lemma PhaseSpacedExample(s: string)
    requires s == "Phase 1"
    ensures MapStudyPhase(s) == "PHASE1"
  {
    var a: string :| a == "phase";
    var b: string :| b == "1";
    assert Lower(s) == a + [' '] + b;
    ReplaceCharOnce(a, b, ' ', "_");
    var k: string :| k == "phase_1";
    assert ReplaceAll(Lower(s), " ", "_") == k;
    ReplaceCharAbsent(k, '-', "_");
    assert PhaseKey(s) == k;
  }

  lemma PhaseUnspacedExampleKey(s: string)
    requires s == "phase1"
    ensures PhaseKey(s) == s
  {
    var k: string :| k == "phase1";
    assert Lower(s) == k;
    ReplaceCharAbsent(k, ' ', "_");
    ReplaceCharAbsent(k, '-', "_");
  }

  /** "phase1", without a separator, gives the same enum as "Phase 1". */
  lemma PhaseUnspacedExample(s: string)
    requires s == "phase1"
    ensures MapStudyPhase(s) == "PHASE1"
  {
    PhaseUnspacedExampleKey(s);
  }

  lemma PhaseHyphenExampleSpaces(s: string)
    requires s == "Early-Phase 1"
    ensures ReplaceAll(Lower(s), " ", "_") == "early" + ['-'] + "phase" + "_" + "1"
  {
    assert Lower(s) == "early" + ['-'] + "phase" + [' '] + "1";
    ReplaceCharOnce("early" + ['-'] + "phase", "1", ' ', "_");
  }

  lemma PhaseHyphenExampleKey(s: string)
    requires s == "Early-Phase 1"
    ensures PhaseKey(s) == "early_phase_1"
  {
    PhaseHyphenExampleSpaces(s);
    assert "early" + ['-'] + "phase" + "_" + "1" == "early" + ['-'] + ("phase" + "_" + "1");
    ReplaceCharOnce("early", "phase" + "_" + "1", '-', "_");
  }

  /** A hyphen in a phase is normalised like a space. */
  lemma PhaseHyphenExample(s: string)
    requires s == "Early-Phase 1"
    ensures MapStudyPhase(s) == "EARLY_PHASE1"
  {
    PhaseHyphenExampleKey(s);
  }

  /** The study type normalises a space ... */
  lemma TypeSpacedExample(s: string)
    requires s == "Expanded Access"
    ensures MapStudyType(s) == "EXPANDED_ACCESS"
  {
    var a: string :| a == "expanded";
    var b: string :| b == "access";
    assert Lower(s) == a + [' '] + b;
    ReplaceCharOnce(a, b, ' ', "_");
    assert TypeKey(s) == a + "_" + b;
    assert a + "_" + b == "expanded_access";
  }

  lemma TypeHyphenExampleKey(s: string)
    requires s == "expanded-access"
    ensures TypeKey(s) == s
  {
    var k: string :| k == "expanded-access";
    assert Lower(s) == k;
    ReplaceCharAbsent(k, ' ', "_");
  }

  /** ... but not a hyphen, so a hyphenated type is echoed upper-cased. */
  lemma TypeHyphenExample(s: string)
    requires s == "expanded-access"
    ensures MapStudyType(s) == "EXPANDED-ACCESS"
  {
    TypeHyphenExampleKey(s);
    assert Upper(s) == "EXPANDED-ACCESS";
  }

  // ---------------------------------------------------------------------------
  // Query parameters (`_build_search_params`)
  // ---------------------------------------------------------------------------

  /** `[f(x) for x in xs]` where `f` first calls a string method on `x`: a
      non-string element raises. */
  function MapStrings(xs: seq<Json>, f: string -> string): (r: Outcome<seq<string>>)
    ensures r.Ok? <==> forall i :: 0 <= i < |xs| ==> xs[i].JStr?
    ensures r.Ok? ==> |r.value| == |xs| && forall i :: 0 <= i < |xs| ==> r.value[i] == f(xs[i].s)
  {
    if xs == [] then Ok([])
    else
      var s :- AsStr(xs[0]);
      var rest :- MapStrings(xs[1..], f);
      Ok([f(s)] + rest)
  }

  /** The `filter.overallStatus` value: the mapped statuses joined with
      commas, or nothing when the status list is empty. */
  function StatusFilter(recruitmentStatus: Json): (r: Outcome<Option<string>>)
    ensures !Truthy(recruitmentStatus) ==> r == Ok(None)
  {
    if !Truthy(recruitmentStatus) then Ok(None)
    else
      var items :- PyIter(recruitmentStatus);
      var mapped :- MapStrings(items, MapRecruitmentStatus);
      Ok(Some(Join(",", mapped)))
  }

  /** The phase term of the advanced filter: `AREA[Phase]X` terms joined
      with `" OR "`, parenthesised when there are several. */
  function PhaseFilter(mapped: seq<string>): string
  {
    var terms := seq(|mapped|, i requires 0 <= i < |mapped| => "AREA[Phase]" + mapped[i]);
    var joined := Join(" OR ", terms);
    if |mapped| > 1 then "(" + joined + ")" else joined
  }

  /** A single phase is a bare term; several are a parenthesised OR-group. */
  lemma PhaseFilterShape(mapped: seq<string>)
    ensures |mapped| == 1 ==> PhaseFilter(mapped) == "AREA[Phase]" + mapped[0]
    ensures |mapped| > 1 ==> StartsWith(PhaseFilter(mapped), "(" + ("AREA[Phase]" + mapped[0]))
    ensures |mapped| > 1 ==> EndsWith(PhaseFilter(mapped), ")")
  {
    var terms := seq(|mapped|, i requires 0 <= i < |mapped| => "AREA[Phase]" + mapped[i]);
    if |mapped| > 1 {
      JoinPrefix(" OR ", terms);
      Parenthesised(Join(" OR ", terms), terms[0]);
    }
  }

  /** Wrapping a string in parentheses keeps its prefix after the opening
      one. */
  lemma Parenthesised(s: string, prefix: string)
    requires StartsWith(s, prefix)
    ensures StartsWith("(" + s + ")", "(" + prefix) && EndsWith("(" + s + ")", ")")
  {
    assert ("(" + s + ")")[..|prefix| + 1] == "(" + s[..|prefix|];
  }

  /** The mapped phases, as the phase term of the advanced filter. */
  function PhaseTerm(studyPhase: Json): (r: Outcome<Option<string>>)
    ensures !Truthy(studyPhase) ==> r == Ok(None)
  {
    if !Truthy(studyPhase) then Ok(None)
    else
      var items :- PyIter(studyPhase);
      var mapped :- MapStrings(items, MapStudyPhase);
      Ok(Some(PhaseFilter(mapped)))
  }

  /** The study-type term of the advanced filter, omitted for the default
      type. */
  function TypeTerm(studyType: Json): (r: Outcome<Option<string>>)
    ensures studyType.JStr? && studyType.s != [] ==>
              r == Ok(if Lower(studyType.s) == "interventional" then None
                      else Some("AREA[StudyType]" + MapStudyType(studyType.s)))
    ensures !Truthy(studyType) ==> r == Ok(None)
    ensures Truthy(studyType) && !studyType.JStr? ==> r.Raised?
  {
    if !Truthy(studyType) then Ok(None)
    else
      var s :- AsStr(studyType);
      if Lower(s) == "interventional" then Ok(None)
      else Ok(Some("AREA[StudyType]" + MapStudyType(s)))
  }

  /** Every spelling of the default study type is left out of the filter. */
  lemma InterventionalOmitted(s: string)
    requires Lower(s) == "interventional"
    ensures TypeTerm(JStr(s)) == Ok(None)
  {
  }

  /** The present terms among the phase and study-type terms, in that order. */
  function AdvancedTerms(phase: Option<string>, studyType: Option<string>): (r: seq<string>)
    ensures |r| == (if phase.Some? then 1 else 0) + (if studyType.Some? then 1 else 0)
    ensures phase.Some? ==> r[0] == phase.value
    ensures studyType.Some? ==> r[|r| - 1] == studyType.value
  {
    (if phase.Some? then [phase.value] else []) + (if studyType.Some? then [studyType.value] else [])
  }

  /** `filter.advanced`: the terms joined with `" AND "`, absent when there
      are none. */
  function AdvancedFilter(phase: Option<string>, studyType: Option<string>): (r: Option<Json>)
    ensures r.None? <==> phase.None? && studyType.None?
  {
    var terms := AdvancedTerms(phase, studyType);
    if terms == [] then None else Some(JStr(Join(" AND ", terms)))
  }

  /** The value of `sort`: `"by:order"`, or the bare field when the order is
      empty, or absent when the field is empty. */
  function SortValue(sortBy: Json, sortOrder: Json): (r: Option<Json>)
    ensures r.None? <==> !Truthy(sortBy)
    ensures Truthy(sortBy) && !Truthy(sortOrder) ==> r == Some(sortBy)
  {
    if !Truthy(sortBy) then None
    else if Truthy(sortOrder) then Some(JStr(PyStr(sortBy) + ":" + PyStr(sortOrder)))
    else Some(sortBy)
  }

  /** A string parameter that is set only when non-empty. */
  function IfNonEmpty(s: string): (r: Option<Json>)
    ensures r.Some? <==> s != []
    ensures r.Some? ==> r.value == JStr(s)
  {
    if s == [] then None else Some(JStr(s))
  }

  function AsJsonText(o: Option<string>): (r: Option<Json>)
    ensures r.Some? <==> o.Some?
    ensures o.Some? ==> r.value == JStr(o.value)
  {
    match o
    case Some(s) => Some(JStr(s))
    case None => None
  }

  /** A key the builder may set, with the value it sets or nothing. */
  type Slot = (string, Option<Json>)

  function SlotEntry(slot: Slot): Option<(string, Json)>
  {
    if slot.1.Some? then Some((slot.0, slot.1.value)) else None
  }

  /** The dictionary holding the slots that have a value, in slot order. */
  function Present(slots: seq<Slot>): seq<(string, Json)>
  {
    FilterMap(slots, SlotEntry)
  }

  predicate SlotKeysUnique(slots: seq<Slot>)
  {
    forall i, j :: 0 <= i < j < |slots| ==> slots[i].0 != slots[j].0
  }

  /** The entry a slot contributes: one pair when it has a value. */
  function Entry(k: string, v: Option<Json>): (r: seq<(string, Json)>)
    ensures r == if v.Some? then [(k, v.value)] else []
  {
    if v.Some? then [(k, v.value)] else []
  }

  /** A further slot adds at most one entry, at the end. */
  lemma PresentSnoc(done: seq<Slot>, k: string, v: Option<Json>)
    ensures Present(done + [(k, v)]) == Present(done) + Entry(k, v)
  {
    FilterMapSnoc(done, (k, v), SlotEntry);
  }

  /** `if v: d[k] = v` for a key `d` does not hold yet (all of `d`'s keys
      are in `keys`): the entry is appended when there is a value. */
  method AssignIf(es: seq<(string, Json)>, ghost keys: set<string>, k: string, v: Option<Json>)
    returns (r: seq<(string, Json)>)
    requires forall j :: 0 <= j < |es| ==> es[j].0 in keys
    requires k !in keys
    ensures r == es + Entry(k, v)
    ensures forall j :: 0 <= j < |r| ==> r[j].0 in keys + {k}
  {
    r := es;
    if v.Some? {
      r := Put(es, k, v.value);
    }
  }

  /** A present slot is looked up to its value; an absent one, or a key no
      slot names, is not found. */
  lemma {:induction false} PresentLookup(slots: seq<Slot>, k: string)
    requires SlotKeysUnique(slots)
    ensures forall i :: 0 <= i < |slots| && slots[i].0 == k ==> Lookup(Present(slots), k) == slots[i].1
    ensures (forall i :: 0 <= i < |slots| ==> slots[i].0 != k) ==> Lookup(Present(slots), k).None?
  {
    if slots != [] {
      var rest := slots[1..];
      PresentLookup(rest, k);
      var head := SlotEntry(slots[0]);
      assert Present(slots) == (if head.Some? then [head.value] else []) + Present(rest);
      if slots[0].0 == k {
        assert forall i :: 0 <= i < |rest| ==> rest[i].0 != k by {
          forall i | 0 <= i < |rest| ensures rest[i].0 != k {
            assert slots[i + 1] == rest[i];
          }
        }
        if head.None? {
          assert Present(slots) == Present(rest);
        }
      } else {
        forall i | 0 <= i < |rest| && rest[i].0 == k ensures Lookup(Present(slots), k) == rest[i].1 {
          assert slots[i + 1] == rest[i];
          FindKeyAppendFront(head, Present(rest), k);
        }
        if forall i :: 0 <= i < |slots| ==> slots[i].0 != k {
          assert forall i :: 0 <= i < |rest| ==> rest[i].0 != k by {
            forall i | 0 <= i < |rest| ensures rest[i].0 != k {
              assert slots[i + 1] == rest[i];
            }
          }
          FindKeyAppendFront(head, Present(rest), k);
        }
      }
    }
  }

  /** A leading entry with another key does not change a lookup. */
  lemma FindKeyAppendFront(head: Option<(string, Json)>, es: seq<(string, Json)>, k: string)
    requires head.Some? ==> head.value.0 != k
    ensures Lookup((if head.Some? then [head.value] else []) + es, k) == Lookup(es, k)
  {
    if head.Some? {
      var x := [head.value] + es;
      assert x[1..] == es;
      if FindKey(es, k).Some? {
        var j := FindKey(es, k).value;
        assert x[j + 1] == es[j];
      }
    } else {
      assert [] + es == es;
    }
  }

  /** The present slots of distinct keys form a dictionary without a repeated
      key. */
  lemma {:induction false} PresentUnique(slots: seq<Slot>)
    requires SlotKeysUnique(slots)
    ensures Sorting.UniqueKeys(Present(slots))
  {
    if slots != [] {
      var rest := slots[1..];
      assert SlotKeysUnique(rest) by {
        forall i, j | 0 <= i < j < |rest| ensures rest[i].0 != rest[j].0 {
          assert rest[i] == slots[i + 1] && rest[j] == slots[j + 1];
        }
      }
      PresentUnique(rest);
      var head := SlotEntry(slots[0]);
      assert Present(slots) == (if head.Some? then [head.value] else []) + Present(rest);
      if head.Some? {
        forall y | y in Present(rest) ensures y.0 != slots[0].0 {
          FilterMapMembers(rest, SlotEntry, y);
          var i :| 0 <= i < |rest| && SlotEntry(rest[i]) == Some(y);
          assert rest[i] == slots[i + 1];
        }
        var r := Present(slots);
        forall i, j | 0 <= i < j < |r| ensures r[i].0 != r[j].0 {
          if i == 0 {
            assert r[j] == Present(rest)[j - 1];
            assert r[j] in Present(rest);
          } else {
            assert r[i] == Present(rest)[i - 1] && r[j] == Present(rest)[j - 1];
          }
        }
      }
    }
  }

  /** The slots `_build_search_params` fills, in the order it assigns them. */
  function ParamSlots(query: string, condition: string, intervention: string, location: string,
                      statuses: Option<string>, phase: Option<string>, studyType: Option<string>,
                      maxResults: Json, sortBy: Json, sortOrder: Json): (r: seq<Slot>)
    ensures |r| == 10
  {
    QuerySlots(query, condition, intervention, location, maxResults, sortBy, sortOrder)
    + [("filter.overallStatus", AsJsonText(statuses))]
    + [("filter.advanced", AdvancedFilter(phase, studyType))]
  }

  /** The first eight slots: the fixed keys, the sort order and the query
      terms. */
  function QuerySlots(query: string, condition: string, intervention: string, location: string,
                      maxResults: Json, sortBy: Json, sortOrder: Json): (r: seq<Slot>)
    ensures |r| == 8
  {
    [] + [("pageSize", Some(maxResults))] + [("countTotal", Some(JStr("true")))] + [("format", Some(JStr("json")))]
    + [("sort", SortValue(sortBy, sortOrder))]
    + [("query.term", IfNonEmpty(query))] + [("query.cond", IfNonEmpty(condition))]
    + [("query.intr", IfNonEmpty(intervention))] + [("query.locn", IfNonEmpty(location))]
  }

  /** The slot list names each key once, at a fixed position. */
  lemma ParamSlotsKeys(slots: seq<Slot>)
    requires |slots| == 10
    requires slots[0].0 == "pageSize" && slots[1].0 == "countTotal" && slots[2].0 == "format"
    requires slots[3].0 == "sort" && slots[4].0 == "query.term" && slots[5].0 == "query.cond"
    requires slots[6].0 == "query.intr" && slots[7].0 == "query.locn"
    requires slots[8].0 == "filter.overallStatus" && slots[9].0 == "filter.advanced"
    ensures SlotKeysUnique(slots)
    ensures forall i :: 0 <= i < |slots| ==> slots[i].0 in ParamKeys
  {
  }

  /** Every key `_build_search_params` may set. */
  const ParamKeys: set<string> := {"pageSize", "countTotal", "format", "sort", "query.term",
    "query.cond", "query.intr", "query.locn", "filter.overallStatus", "filter.advanced"}

  /** The search parameters as a dictionary: `pageSize`, `countTotal` and
      `format` are always set; every other key is set exactly when its input
      is present; no other key appears and no key twice. */
  lemma SearchParamsLookup(query: string, condition: string, intervention: string, location: string,
                           statuses: Option<string>, phase: Option<string>, studyType: Option<string>,
                           maxResults: Json, sortBy: Json, sortOrder: Json)
    ensures var p := Present(ParamSlots(query, condition, intervention, location, statuses, phase,
                                        studyType, maxResults, sortBy, sortOrder));
            && Lookup(p, "pageSize") == Some(maxResults)
            && Lookup(p, "countTotal") == Some(JStr("true"))
            && Lookup(p, "format") == Some(JStr("json"))
            && Lookup(p, "sort") == SortValue(sortBy, sortOrder)
            && Lookup(p, "query.term") == IfNonEmpty(query)
            && Lookup(p, "query.cond") == IfNonEmpty(condition)
            && Lookup(p, "query.intr") == IfNonEmpty(intervention)
            && Lookup(p, "query.locn") == IfNonEmpty(location)
            && Lookup(p, "filter.overallStatus") == AsJsonText(statuses)
            && Lookup(p, "filter.advanced") == AdvancedFilter(phase, studyType)
            && (forall k :: k !in ParamKeys ==> Lookup(p, k).None?)
            && Sorting.UniqueKeys(p)
  {
    var slots := ParamSlots(query, condition, intervention, location, statuses, phase, studyType,
                            maxResults, sortBy, sortOrder);
    ParamSlotsKeys(slots);
    PresentUnique(slots);
    PresentLookup(slots, "pageSize");
    PresentLookup(slots, "countTotal");
    PresentLookup(slots, "format");
    PresentLookup(slots, "sort");
    PresentLookup(slots, "query.term");
    PresentLookup(slots, "query.cond");
    PresentLookup(slots, "query.intr");
    PresentLookup(slots, "query.locn");
    PresentLookup(slots, "filter.overallStatus");
    PresentLookup(slots, "filter.advanced");
    forall k | k !in ParamKeys ensures Lookup(Present(slots), k).None? {
      PresentLookup(slots, k);
    }
  }

  /** `_build_search_params`: fills the parameter dictionary key by key, in
      the order of `ParamSlots`. Mapping a status or phase that is not a
      string, or a study type that is not a string, raises. */
  method BuildSearchParams(query: string, condition: string, intervention: string, location: string,
                           recruitmentStatus: Json, studyPhase: Json, studyType: Json,
                           maxResults: Json, sortBy: Json, sortOrder: Json)
    returns (r: Outcome<seq<(string, Json)>>)
    ensures r.Raised? <==> StatusFilter(recruitmentStatus).Raised? || PhaseTerm(studyPhase).Raised? ||
                           TypeTerm(studyType).Raised?
    ensures r.Ok? ==> r.value == Present(ParamSlots(query, condition, intervention, location,
                                                    StatusFilter(recruitmentStatus).value,
                                                    PhaseTerm(studyPhase).value, TypeTerm(studyType).value,
                                                    maxResults, sortBy, sortOrder))
  {
    var params;
    ghost var done, keys;
    params, done, keys := QueryParams(query, condition, intervention, location, maxResults, sortBy, sortOrder);
    var statuses :- StatusFilter(recruitmentStatus);
    PresentSnoc(done, "filter.overallStatus", AsJsonText(statuses));
    params := AssignIf(params, keys, "filter.overallStatus", AsJsonText(statuses));
    done, keys := done + [("filter.overallStatus", AsJsonText(statuses))], keys + {"filter.overallStatus"};
    var phase :- PhaseTerm(studyPhase);
    var typeTerm :- TypeTerm(studyType);
    PresentSnoc(done, "filter.advanced", AdvancedFilter(phase, typeTerm));
    params := AssignIf(params, keys, "filter.advanced", AdvancedFilter(phase, typeTerm));
    done := done + [("filter.advanced", AdvancedFilter(phase, typeTerm))];
    return Ok(params);
  }

  /** The first eight assignments of `_build_search_params`: the fixed
      keys, the sort order and the four query terms. */
  method QueryParams(query: string, condition: string, intervention: string, location: string,
                     maxResults: Json, sortBy: Json, sortOrder: Json)
    returns (params: seq<(string, Json)>, ghost done: seq<Slot>, ghost keys: set<string>)
    ensures done == QuerySlots(query, condition, intervention, location, maxResults, sortBy, sortOrder)
    ensures params == Present(done)
    ensures keys == {"pageSize", "countTotal", "format", "sort", "query.term", "query.cond", "query.intr",
                     "query.locn"}
    ensures forall j :: 0 <= j < |params| ==> params[j].0 in keys
  {
    done, keys, params := [], {}, [];
    PresentSnoc(done, "pageSize", Some(maxResults));
    params := AssignIf(params, keys, "pageSize", Some(maxResults));
    done, keys := done + [("pageSize", Some(maxResults))], keys + {"pageSize"};
    PresentSnoc(done, "countTotal", Some(JStr("true")));
    params := AssignIf(params, keys, "countTotal", Some(JStr("true")));
    done, keys := done + [("countTotal", Some(JStr("true")))], keys + {"countTotal"};
    PresentSnoc(done, "format", Some(JStr("json")));
    params := AssignIf(params, keys, "format", Some(JStr("json")));
    done, keys := done + [("format", Some(JStr("json")))], keys + {"format"};
    PresentSnoc(done, "sort", SortValue(sortBy, sortOrder));
    params := AssignIf(params, keys, "sort", SortValue(sortBy, sortOrder));
    done, keys := done + [("sort", SortValue(sortBy, sortOrder))], keys + {"sort"};
    PresentSnoc(done, "query.term", IfNonEmpty(query));
    params := AssignIf(params, keys, "query.term", IfNonEmpty(query));
    done, keys := done + [("query.term", IfNonEmpty(query))], keys + {"query.term"};
    PresentSnoc(done, "query.cond", IfNonEmpty(condition));
    params := AssignIf(params, keys, "query.cond", IfNonEmpty(condition));
    done, keys := done + [("query.cond", IfNonEmpty(condition))], keys + {"query.cond"};
    PresentSnoc(done, "query.intr", IfNonEmpty(intervention));
    params := AssignIf(params, keys, "query.intr", IfNonEmpty(intervention));
    done, keys := done + [("query.intr", IfNonEmpty(intervention))], keys + {"query.intr"};
    PresentSnoc(done, "query.locn", IfNonEmpty(location));
    params := AssignIf(params, keys, "query.locn", IfNonEmpty(location));
    done, keys := done + [("query.locn", IfNonEmpty(location))], keys + {"query.locn"};
  }

  /** The page size sent is never more than 1000 (a boolean counts as 0 or
      1, as in Python). */
  lemma PageSizeBounded(v: Json)
    requires PyMin(v, 1000).Ok?
    ensures var p := PyMin(v, 1000).value;
            (p.JInt? && p.i <= 1000) || (p.JBool? && p == v)
  {
  }

  // ---------------------------------------------------------------------------
  // Cache key (`_generate_cache_key`)
  // ---------------------------------------------------------------------------

  /** The `k=v` rendering of each pair, in order. */
  function Pairs(params: seq<(string, Json)>): (r: seq<string>)
    ensures |r| == |params|
    ensures forall i :: 0 <= i < |params| ==> r[i] == params[i].0 + "=" + PyStr(params[i].1)
  {
    seq(|params|, i requires 0 <= i < |params| => params[i].0 + "=" + PyStr(params[i].1))
  }

  /** `"_".join(f"{k}={v}" for k, v in sorted(params.items()))`. */
  function CacheKey(params: seq<(string, Json)>): string
  {
    Join("_", Pairs(Sorting.SortByKey(params)))
  }

  /** The knowledge-base URI of a search. */
  function CacheUri(params: seq<(string, Json)>): (r: string)
    ensures StartsWith(r, "clinical_trials://")
  {
    "clinical_trials://" + CacheKey(params)
  }

  /** Two parameter dictionaries holding the same pairs give the same key,
      whatever order the pairs were inserted in. */
  lemma CacheKeyIgnoresOrder(p: seq<(string, Json)>, q: seq<(string, Json)>)
    requires Sorting.UniqueKeys(p)
    requires multiset(p) == multiset(q)
    ensures CacheKey(p) == CacheKey(q)
  {
    Sorting.SortIgnoresOrder(p, q);
  }

  /** Parameters already in key order are rendered in that order. */
  lemma CacheKeyOfSorted(p: seq<(string, Json)>)
    requires Sorting.UniqueKeys(p) && Sorting.SortedByKey(p)
    ensures CacheKey(p) == Join("_", Pairs(p))
  {
    Sorting.SortKeepsUnique(p);
    Sorting.SortedUnique(p, Sorting.SortByKey(p));
  }

  // ---------------------------------------------------------------------------
  // One study (`_process_single_study`)
  // ---------------------------------------------------------------------------

  /** `d.get(key, "")` cut as `x[:n] + "..." if len(x) > n else x`. */
  function ClippedField(es: seq<(string, Json)>, key: string, n: nat): (r: Outcome<Json>)
    ensures Lookup(es, key).None? ==> r == Ok(JStr(""))
    ensures Field(es, key, JStr("")).JStr? ==> r == Ok(JStr(Truncate(Field(es, key, JStr("")).s, n)))
  {
    ClipValue(Field(es, key, JStr("")), n)
  }

  /** One entry of `interventions`: the name and type as given (default
      `""`) and the description cut to 200 characters and an ellipsis. */
  function InterventionRecord(interv: Json): (r: Outcome<Json>)
    ensures r.Ok? <==> interv.JObj? && ClippedField(interv.entries, "description", 200).Ok?
    ensures r.Ok? ==> r.value.JObj? && Keys(r.value.entries) == ["name", "type", "description"]
    ensures r.Ok? ==>
              && Lookup(r.value.entries, "name") == Some(Field(interv.entries, "name", JStr("")))
              && Lookup(r.value.entries, "type") == Some(Field(interv.entries, "type", JStr("")))
              && Lookup(r.value.entries, "description") == Some(ClippedField(interv.entries, "description", 200).value)
  {
    var es :- AsObject(interv);
    var description :- ClippedField(es, "description", 200);
    var record := [("name", Field(es, "name", JStr(""))), ("type", Field(es, "type", JStr(""))),
                   ("description", description)];
    assert record[0].0 == "name" && record[1].0 == "type" && record[2].0 == "description";
    assert "type"[0] != "name"[0] && |"description"| != |"name"| && |"description"| != |"type"|;
    assert FindKey(record, "name") == Some(0);
    assert FindKey(record, "type") == Some(1);
    assert FindKey(record, "description") == Some(2);
    Ok(JObj(record))
  }

  /** One entry of `locations`: each of the five fields as given, `""` when
      missing. */
  function LocationRecord(loc: Json): (r: Outcome<Json>)
    ensures r.Ok? <==> loc.JObj?
    ensures r.Ok? ==> r.value.JObj? && Keys(r.value.entries) == LocationKeys
    ensures r.Ok? ==> forall k | k in LocationKeys :: Lookup(r.value.entries, k) == Some(Field(loc.entries, k, JStr("")))
  {
    var es :- AsObject(loc);
    LocationLookups(es);
    Ok(JObj(LocationEntries(es)))
  }

  /** The keys of a location record, in the order the record lists them. */
  const LocationKeys: seq<string> := ["facility", "city", "state", "country", "status"]

  /** `{key: loc.get(key, "") for each location key}`. */
  function LocationEntries(es: seq<(string, Json)>): (r: seq<(string, Json)>)
    ensures Keys(r) == LocationKeys
  {
    seq(|LocationKeys|, i requires 0 <= i < |LocationKeys| => (LocationKeys[i], Field(es, LocationKeys[i], JStr(""))))
  }

  /** Each location key reads back the field stored under it. */
  lemma LocationLookups(es: seq<(string, Json)>)
    ensures forall k | k in LocationKeys :: Lookup(LocationEntries(es), k) == Some(Field(es, k, JStr("")))
  {
    var record := LocationEntries(es);
    // The five keys have five different lengths.
    assert forall i :: 0 <= i < 5 ==> |LocationKeys[i]| == [8, 4, 5, 7, 6][i];
    assert Sorting.UniqueKeys(record);
    forall k | k in LocationKeys
      ensures Lookup(record, k) == Some(Field(es, k, JStr("")))
    {
      var j :| 0 <= j < 5 && LocationKeys[j] == k;
      LookupUnique(record, j);
    }
  }

  /** `[record(x) for x in section.get(key, [])[:limit]]` when
      `section.get(key)` is truthy, else `[]`. */
  function FirstRecords(section: seq<(string, Json)>, key: string, limit: nat,
                        record: Json -> Outcome<Json>): (r: Outcome<seq<Json>>)
    ensures !Truthy(Field(section, key, JNull)) ==> r == Ok([])
    ensures r.Ok? ==> |r.value| <= limit
    ensures var f := Field(section, key, JNull);
            f.JArr? && f.items != [] ==>
              (r.Ok? <==> forall i :: 0 <= i < |Take(f.items, limit)| ==> record(f.items[i]).Ok?) &&
              (r.Ok? ==> |r.value| == |Take(f.items, limit)| &&
                         forall i :: 0 <= i < |r.value| ==> r.value[i] == record(f.items[i]).value)
  {
    var present := Field(section, key, JNull);
    if !Truthy(present) then Ok([])
    else
      var items :- SliceItems(present, limit);
      TryMap(items, record)
  }

  /** The fields of a study that the connector keeps. */
  datatype StudySummary = StudySummary(
    nctId: Json, title: Json, overallStatus: Json, studyType: Json, phases: Json, conditions: Json,
    interventions: seq<Json>, leadSponsor: Json, lastUpdate: Json,
    criteria: Json, minAge: Json, maxAge: Json, sex: Json,
    locations: seq<Json>)

  /** Reading a study: `None` when it has no protocol section or no NCT id;
      `Raised` when a module is not a dictionary or a value cannot be sliced
      or measured as the code does. */
  function ReadStudy(study: Json): (r: Outcome<Option<StudySummary>>)
    ensures r.Ok? && r.value.Some? ==> Truthy(r.value.value.nctId)
    ensures r.Ok? && r.value.Some? ==> |r.value.value.interventions| <= 5 && |r.value.value.locations| <= 10
  {
    var id :- Identify(study);
    match id
    case None => Ok(None)
    case Some((sections, nctId, title)) =>
      var summary :- ReadSections(sections, nctId, title);
      Ok(Some(summary))
  }

  /** The protocol modules, NCT id and title of a study, or `None` when it
      has no protocol section or no NCT id. */
  function Identify(study: Json): (r: Outcome<Option<(seq<(string, Json)>, Json, Json)>>)
    ensures r.Ok? && r.value.Some? ==> Truthy(r.value.value.1)
  {
    var studyEntries :- AsObject(study);
    var protocol := Field(studyEntries, "protocolSection", Empty);
    if !Truthy(protocol) then Ok(None)
    else
      var sections :- AsObject(protocol);
      var identification :- AsObject(Field(sections, "identificationModule", Empty));
      var nctId := Field(identification, "nctId", JStr(""));
      var title := Field(identification, "briefTitle", JStr(""));
      if !Truthy(nctId) then Ok(None)
      else Ok(Some((sections, nctId, title)))
  }

  /** The modules of a study's protocol section once its NCT id is known. */
  function ReadSections(sections: seq<(string, Json)>, nctId: Json, title: Json): (r: Outcome<StudySummary>)
    ensures r.Ok? ==> r.value.nctId == nctId && r.value.title == title
    ensures r.Ok? ==> |r.value.interventions| <= 5 && |r.value.locations| <= 10
    ensures r.Ok? ==> var arms := Field(sections, "armsInterventionsModule", Empty);
                      arms.JObj? && FirstRecords(arms.entries, "interventions", 5, InterventionRecord) == Ok(r.value.interventions)
    ensures r.Ok? ==> var contacts := Field(sections, "contactsLocationsModule", Empty);
                      contacts.JObj? && FirstRecords(contacts.entries, "locations", 10, LocationRecord) == Ok(r.value.locations)
    ensures r.Ok? ==> var e := Field(sections, "eligibilityModule", Empty);
                      e.JObj? && ClippedField(e.entries, "eligibilityCriteria", 500) == Ok(r.value.criteria)
  {
    var status :- AsObject(Field(sections, "statusModule", Empty));
    var lastUpdate :- AsObject(Field(status, "lastUpdatePostDateStruct", Empty));
    var design :- AsObject(Field(sections, "designModule", Empty));
    var conditions :- AsObject(Field(sections, "conditionsModule", Empty));
    var arms :- AsObject(Field(sections, "armsInterventionsModule", Empty));
    var interventions :- FirstRecords(arms, "interventions", 5, InterventionRecord);
    var eligibility :- AsObject(Field(sections, "eligibilityModule", Empty));
    var contacts :- AsObject(Field(sections, "contactsLocationsModule", Empty));
    var locations :- FirstRecords(contacts, "locations", 10, LocationRecord);
    var sponsors :- AsObject(Field(sections, "sponsorCollaboratorsModule", Empty));
    var leadSponsor :- AsObject(Field(sponsors, "leadSponsor", Empty));
    var criteria :- ClippedField(eligibility, "eligibilityCriteria", 500);
    Ok(StudySummary(
      nctId, title, Field(status, "overallStatus", JStr("Unknown")), Field(design, "studyType", JStr("")),
      Field(design, "phases", JArr([])), Field(conditions, "conditions", JArr([])), interventions,
      Field(leadSponsor, "name", JStr("")), Field(lastUpdate, "date", JStr("")), criteria,
      Field(eligibility, "minimumAge", JStr("")), Field(eligibility, "maximumAge", JStr("")),
      Field(eligibility, "sex", JStr("")), locations))
  }

  const StudyUrlPrefix := "https://clinicaltrials.gov/study/"
  const StudyApiUrlPrefix := "https://clinicaltrials.gov/api/v2/studies/"

  /** The keys of a normalised study record, in the order it lists them. */
  const StudyKeys := ["nct_id", "title", "overall_status", "study_type", "phases", "conditions",
    "interventions", "lead_sponsor", "last_update", "eligibility", "locations", "study_url", "api_url"]

  /** The normalised study record. */
  function StudyJson(s: StudySummary): (r: Json)
    ensures r.JObj? && Keys(r.entries) == StudyKeys
  {
    JObj([("nct_id", s.nctId), ("title", s.title), ("overall_status", s.overallStatus),
          ("study_type", s.studyType), ("phases", s.phases), ("conditions", s.conditions),
          ("interventions", JArr(s.interventions)), ("lead_sponsor", s.leadSponsor),
          ("last_update", s.lastUpdate),
          ("eligibility", JObj([("criteria", s.criteria), ("min_age", s.minAge),
                                ("max_age", s.maxAge), ("sex", s.sex)])),
          ("locations", JArr(s.locations)),
          ("study_url", JStr(StudyUrlPrefix + PyStr(s.nctId))),
          ("api_url", JStr(StudyApiUrlPrefix + PyStr(s.nctId)))])
  }

  /** `_process_single_study`: the record, or `None` when the study is
      skipped or reading it raises (the handler swallows the exception). */
  function ProcessSingleStudy(study: Json): Option<Json>
  {
    match Caught(ReadStudy(study))
    case None => None
    case Some(summary) => Some(StudyJson(summary))
  }

  /** A record comes back exactly when reading the study neither raises nor
      skips it, and it is that study's normalised (hence truthy) record. */
  lemma ProcessSingleStudyForm(study: Json)
    ensures ProcessSingleStudy(study).Some? <==> ReadStudy(study).Ok? && ReadStudy(study).value.Some?
    ensures ProcessSingleStudy(study).Some? ==>
              ProcessSingleStudy(study).value == StudyJson(ReadStudy(study).value.value) &&
              Truthy(ProcessSingleStudy(study).value)
  {
    if ProcessSingleStudy(study).Some? {
      assert Keys(ProcessSingleStudy(study).value.entries) == StudyKeys;
    }
  }

  /** A study that is not a dictionary, has no protocol section, or whose
      identification carries no NCT id is skipped. */
  lemma StudySkipped(study: Json)
    ensures !study.JObj? ==> ProcessSingleStudy(study).None?
    ensures study.JObj? && !Truthy(Field(study.entries, "protocolSection", Empty)) ==>
              ProcessSingleStudy(study).None?
    ensures study.JObj? && Field(study.entries, "protocolSection", Empty).JObj? ==>
              var sections := Field(study.entries, "protocolSection", Empty).entries;
              var identification := Field(sections, "identificationModule", Empty);
              identification.JObj? && !Truthy(Field(identification.entries, "nctId", JStr(""))) ==>
                ProcessSingleStudy(study).None?
  {
  }

  /** The summary of a study none of whose other modules is present. */
  function DefaultSummary(nctId: Json, title: Json): StudySummary
  {
    StudySummary(nctId, title, JStr("Unknown"), JStr(""), JArr([]), JArr([]), [],
                 JStr(""), JStr(""), JStr(""), JStr(""), JStr(""), JStr(""), [])
  }

  /** Missing protocol modules read as their documented defaults. */
  lemma SectionDefaults(sections: seq<(string, Json)>, nctId: Json, title: Json)
    requires Lookup(sections, "statusModule").None? && Lookup(sections, "designModule").None?
    requires Lookup(sections, "conditionsModule").None? && Lookup(sections, "armsInterventionsModule").None?
    requires Lookup(sections, "eligibilityModule").None? && Lookup(sections, "contactsLocationsModule").None?
    requires Lookup(sections, "sponsorCollaboratorsModule").None?
    ensures ReadSections(sections, nctId, title) == Ok(DefaultSummary(nctId, title))
  {
    assert FirstRecords([], "interventions", 5, InterventionRecord) == Ok([]);
    assert FirstRecords([], "locations", 10, LocationRecord) == Ok([]);
    assert ClippedField([], "eligibilityCriteria", 500) == Ok(JStr(""));
  }

  /** A study that only names its NCT id is read with every documented
      default. */
  lemma MinimalRead(nct: string)
    requires nct != []
    ensures ReadStudy(JObj([("protocolSection", JObj([("identificationModule", JObj([("nctId", JStr(nct))]))]))])) ==
            Ok(Some(DefaultSummary(JStr(nct), JStr(""))))
  {
    var sections := [("identificationModule", JObj([("nctId", JStr(nct))]))];
    MinimalIdentify(nct);
    SectionDefaults(sections, JStr(nct), JStr(""));
  }

  lemma MinimalIdentify(nct: string)
    requires nct != []
    ensures Identify(JObj([("protocolSection", JObj([("identificationModule", JObj([("nctId", JStr(nct))]))]))])) ==
            Ok(Some(([("identificationModule", JObj([("nctId", JStr(nct))]))], JStr(nct), JStr(""))))
  {
    var identification := [("nctId", JStr(nct))];
    var sections := [("identificationModule", JObj(identification))];
    assert Field(sections, "identificationModule", Empty) == JObj(identification);
    assert Field(identification, "briefTitle", JStr("")) == JStr("");
  }

  /** A study that only names its NCT id gets every documented default. */
  lemma MinimalStudy(nct: string)
    requires nct != []
    ensures ProcessSingleStudy(JObj([("protocolSection", JObj([("identificationModule",
                                      JObj([("nctId", JStr(nct))]))]))])) ==
            Some(StudyJson(StudySummary(JStr(nct), JStr(""), JStr("Unknown"), JStr(""), JArr([]), JArr([]), [],
                                        JStr(""), JStr(""), JStr(""), JStr(""), JStr(""), JStr(""), [])))
  {
    MinimalRead(nct);
  }

  /** The record's keys are distinct, so each is found at its own place. */
  lemma StudyKeysUnique(s: StudySummary)
    ensures Sorting.UniqueKeys(StudyJson(s).entries)
  {
    var es := StudyJson(s).entries;
    assert forall i :: 0 <= i < |es| ==> es[i].0 == StudyKeys[i];
  }

  /** Both links are built from the NCT id. */
  lemma StudyUrls(s: StudySummary)
    ensures Lookup(StudyJson(s).entries, "nct_id") == Some(s.nctId)
    ensures Lookup(StudyJson(s).entries, "study_url") == Some(JStr(StudyUrlPrefix + PyStr(s.nctId)))
    ensures Lookup(StudyJson(s).entries, "api_url") == Some(JStr(StudyApiUrlPrefix + PyStr(s.nctId)))
  {
    StudyKeysUnique(s);
    var es := StudyJson(s).entries;
    LookupUnique(es, 0);
    LookupUnique(es, 11);
    LookupUnique(es, 12);
  }

  // ---------------------------------------------------------------------------
  // The result set (`_process_trial_results`)
  // ---------------------------------------------------------------------------

  /** The processed result set; `timestamp` is `datetime.utcnow().isoformat()`
      taken as an input. */
  datatype TrialResults = TrialResults(searchParameters: seq<(string, Json)>, totalResults: Json,
                                       studies: seq<Json>, timestamp: string)

  function TrialResultsJson(t: TrialResults): (r: Json)
    ensures r.JObj? && Keys(r.entries) == ["search_parameters", "total_results", "results_returned",
                                           "studies", "search_metadata"]
    ensures r.entries[2].1 == JInt(|t.studies|) && r.entries[3].1 == JArr(t.studies)
  {
    JObj([("search_parameters", JObj(t.searchParameters)), ("total_results", t.totalResults),
          ("results_returned", JInt(|t.studies|)), ("studies", JArr(t.studies)),
          ("search_metadata", JObj([("search_timestamp", JStr(t.timestamp)), ("api_version", JStr("v2.0")),
                                    ("source", JStr("clinicaltrials.gov"))]))])
  }

  /** The studies of a reply, as `for study in data.get("studies", [])`
      iterates them; `len(studies)` is taken first and must exist. */
  function StudyItems(trialsData: Json): (r: Outcome<seq<Json>>)
    ensures r.Ok? <==> trialsData.JObj? && PyIter(Field(trialsData.entries, "studies", JArr([]))).Ok?
  {
    var data :- AsObject(trialsData);
    PyIter(Field(data, "studies", JArr([])))
  }

  /** `_process_trial_results`: every study is normalised in order, those
      that are skipped or fail are dropped, and the counts are reported. */
  method ProcessTrialResults(trialsData: Json, searchParams: seq<(string, Json)>, timestamp: string)
    returns (r: Outcome<TrialResults>)
    ensures r.Ok? <==> StudyItems(trialsData).Ok?
    ensures r.Ok? ==> r.value.studies == FilterMap(StudyItems(trialsData).value, ProcessSingleStudy)
    ensures r.Ok? ==> |r.value.studies| <= |StudyItems(trialsData).value|
    ensures r.Ok? ==> r.value.totalResults ==
                      Field(trialsData.entries, "totalCount", JInt(|StudyItems(trialsData).value|))
    ensures r.Ok? ==> r.value.searchParameters == searchParams && r.value.timestamp == timestamp
  {
    var data :- AsObject(trialsData);
    var studies := Field(data, "studies", JArr([]));
    var items :- PyIter(studies);
    var total := Field(data, "totalCount", JInt(|items|));
    // `_process_single_study` only hands back non-empty records, so `if
    // processed_study:` keeps exactly the present ones.
    var processed := Collect(items, ProcessSingleStudy);
    FilterMapLength(items, ProcessSingleStudy);
    return Ok(TrialResults(searchParams, total, processed, timestamp));
  }
  // ---------------------------------------------------------------------------
  // The tool call (`exec_async`)
  // ---------------------------------------------------------------------------

  const SearchFailedPrefix := "Clinical trials search failed: "
  const NoTermsMessage := "At least one search parameter (query, condition, intervention, or location) must be provided"
  const RateLimitMessage := "Rate limit exceeded. Please wait before making more requests."
  const NoTrialsMessage := "No clinical trials found matching the search criteria"

  /** The tool parameters after defaults are applied. */
  datatype TrialsRequest = TrialsRequest(
    query: string, condition: string, intervention: string, location: string,
    recruitmentStatus: Json, studyPhase: Json, studyType: Json,
    maxResults: Json, sortBy: Json, sortOrder: Json)

  /** Reading the tool parameters with their documented defaults; a
      parameter object that is not a dictionary, a text parameter that is
      not a string, or a `max_results` that cannot be compared with 1000
      raises. */
  function ReadTrialsRequest(toolParams: Json): (r: Outcome<TrialsRequest>)
    ensures r.Ok? <==> toolParams.JObj? && TextParam(toolParams.entries, "query").Ok? &&
                       TextParam(toolParams.entries, "condition").Ok? &&
                       TextParam(toolParams.entries, "intervention").Ok? &&
                       TextParam(toolParams.entries, "location").Ok? &&
                       PyMin(Field(toolParams.entries, "max_results", JInt(50)), 1000).Ok?
    ensures r.Ok? ==> var es := toolParams.entries;
                      && r.value.query == TextParam(es, "query").value
                      && r.value.condition == TextParam(es, "condition").value
                      && r.value.intervention == TextParam(es, "intervention").value
                      && r.value.location == TextParam(es, "location").value
                      && r.value.recruitmentStatus == Field(es, "recruitment_status", JArr([]))
                      && r.value.studyPhase == Field(es, "study_phase", JArr([]))
                      && r.value.studyType == Field(es, "study_type", JStr("Interventional"))
                      && r.value.maxResults == PyMin(Field(es, "max_results", JInt(50)), 1000).value
                      && r.value.sortBy == Field(es, "sort_by", JStr("LastUpdatePostDate"))
                      && r.value.sortOrder == Field(es, "sort_order", JStr("desc"))
  {
    var es :- AsObject(toolParams);
    var query :- TextParam(es, "query");
    var condition :- TextParam(es, "condition");
    var intervention :- TextParam(es, "intervention");
    var location :- TextParam(es, "location");
    var maxResults :- PyMin(Field(es, "max_results", JInt(50)), 1000);
    Ok(TrialsRequest(query, condition, intervention, location,
                     Field(es, "recruitment_status", JArr([])), Field(es, "study_phase", JArr([])),
                     Field(es, "study_type", JStr("Interventional")), maxResults,
                     Field(es, "sort_by", JStr("LastUpdatePostDate")), Field(es, "sort_order", JStr("desc"))))
  }

  /** `not any([query, condition, intervention, location])`. */
  predicate NoSearchTerms(req: TrialsRequest)
  {
    req.query == [] && req.condition == [] && req.intervention == [] && req.location == []
  }

  /** The parameter dictionary `_build_search_params` produces, as a value. */
  function SearchParamsOf(req: TrialsRequest): (r: Outcome<seq<(string, Json)>>)
    ensures r.Raised? <==> StatusFilter(req.recruitmentStatus).Raised? || PhaseTerm(req.studyPhase).Raised? ||
                           TypeTerm(req.studyType).Raised?
  {
    var statuses :- StatusFilter(req.recruitmentStatus);
    var phase :- PhaseTerm(req.studyPhase);
    var typeTerm :- TypeTerm(req.studyType);
    Ok(Present(ParamSlots(req.query, req.condition, req.intervention, req.location, statuses, phase, typeTerm,
                          req.maxResults, req.sortBy, req.sortOrder)))
  }

  /** A cached item's content, marked as coming from the cache. */
  function CachedReply(cached: Json): (r: Reply)
    ensures r.Success? <==> cached.JObj? && Field(cached.entries, "content", Empty).JObj?
    ensures r.Success? ==> r.knowledgeItems.None? && r.payload.JObj? &&
                           Lookup(r.payload.entries, "source") == Some(JStr("knowledge_base_cache"))
    ensures r.Success? ==> forall k :: k != "source" ==>
                             Lookup(r.payload.entries, k) == Lookup(Field(cached.entries, "content", Empty).entries, k)
    ensures !r.Success? ==> r == Crashed(SearchFailedPrefix)
  {
    match Get(cached, "content", Empty)
    case Raised => Crashed(SearchFailedPrefix)
    case Ok(content) =>
      match AsObject(content)
      case Raised => Crashed(SearchFailedPrefix)
      case Ok(es) => Success(JObj(Put(es, "source", JStr("knowledge_base_cache"))), None)
  }

  /** `_fetch_clinical_trials`'s status checks, caught by the handler: the
      reply to return when the request did not bring back JSON studies. */
  function FetchFailure(reply: HttpReply): (r: Option<Reply>)
    ensures reply.status == 429 ==> r == Some(Failure(SearchFailedPrefix + RateLimitMessage))
    ensures reply.status != 429 && reply.status != 200 ==>
              r == Some(Failure(SearchFailedPrefix + "ClinicalTrials.gov API returned status " +
                                IntToStr(reply.status) + ": " + reply.text))
    ensures reply.status == 200 ==> (r.None? <==> reply.body.Ok?)
    ensures r.Some? ==> !r.value.Success?
  {
    if reply.status == 429 then Some(Failure(SearchFailedPrefix + RateLimitMessage))
    else if reply.status != 200 then
      Some(Failure(SearchFailedPrefix + "ClinicalTrials.gov API returned status " + IntToStr(reply.status) +
                   ": " + reply.text))
    else if reply.body.Raised? then Some(Crashed(SearchFailedPrefix))
    else None
  }

  /** The payload for a reply without studies. */
  function NoTrialsPayload(params: seq<(string, Json)>): (r: Json)
    ensures r.JObj? && Keys(r.entries) == ["search_parameters", "total_results", "studies", "message"]
    ensures r.entries[1].1 == JInt(0) && r.entries[2].1 == JArr([])
  {
    JObj([("search_parameters", JObj(params)), ("total_results", JInt(0)), ("studies", JArr([])),
          ("message", JStr(NoTrialsMessage))])
  }

  /** The knowledge item describing a result set. */
  function KnowledgeItem(results: TrialResults, uri: string, req: TrialsRequest): (r: Json)
    ensures r.JObj? && Keys(r.entries) == ["item_type", "content", "source_uri", "metadata"]
    ensures r.entries[1].1 == TrialResultsJson(results) && r.entries[2].1 == JStr(uri)
  {
    JObj([("item_type", JStr("CLINICAL_TRIALS_SEARCH_RESULTS")), ("content", TrialResultsJson(results)),
          ("source_uri", JStr(uri)),
          ("metadata", JObj([("search_query", JStr(req.query)), ("condition", JStr(req.condition)),
                             ("intervention", JStr(req.intervention)),
                             ("result_count", JInt(|results.studies|)),
                             ("search_type", JStr("clinical_trials_search"))]))])
  }

  /** One knowledge item when studies were kept, none otherwise. */
  function KnowledgeItems(results: TrialResults, uri: string, req: TrialsRequest): (r: seq<Json>)
    ensures |r| == (if results.studies == [] then 0 else 1)
    ensures r != [] ==> r[0] == KnowledgeItem(results, uri, req)
  {
    if results.studies == [] then [] else [KnowledgeItem(results, uri, req)]
  }

  /** The reply built from a decoded response body. */
  function TrialsReply(data: Json, params: seq<(string, Json)>, uri: string, req: TrialsRequest,
                       timestamp: string): (r: Reply)
  {
    if !data.JObj? then Crashed(SearchFailedPrefix)
    else if !Truthy(Field(data.entries, "studies", JNull)) then Success(NoTrialsPayload(params), None)
    else
      match StudyItems(data)
      case Raised => Crashed(SearchFailedPrefix)
      case Ok(items) =>
        var results := TrialResults(params, Field(data.entries, "totalCount", JInt(|items|)),
                                    FilterMap(items, ProcessSingleStudy), timestamp);
        Success(TrialResultsJson(results), Some(KnowledgeItems(results, uri, req)))
  }

  /** The reply once the request has been sent. */
  function FetchedReply(reply: HttpReply, params: seq<(string, Json)>, uri: string, req: TrialsRequest,
                        timestamp: string): (r: Reply)
  {
    match FetchFailure(reply)
    case Some(failure) => failure
    case None =>
      match reply.body
      case Ok(data) => TrialsReply(data, params, uri, req, timestamp)
      case Raised => Crashed(SearchFailedPrefix)
  }

  /** The reply and the effects of one `exec_async` call, as a value. */
  function SearchReply(toolParams: Json, kb: Option<Store>, reply: HttpReply, timestamp: string)
    : (r: (Reply, seq<Effect>))
  {
    match ReadTrialsRequest(toolParams)
    case Raised => (Crashed(SearchFailedPrefix), [])
    case Ok(req) =>
      if NoSearchTerms(req) then (Failure(NoTermsMessage), [])
      else
        match SearchParamsOf(req)
        case Raised => (Crashed(SearchFailedPrefix), [])
        case Ok(params) => CacheOrFetch(req, params, kb, reply, timestamp)
  }

  /** With the parameters built: the cached item when the knowledge base
      has one, otherwise the request and its reply. */
  function CacheOrFetch(req: TrialsRequest, params: seq<(string, Json)>, kb: Option<Store>, reply: HttpReply,
                        timestamp: string): (r: (Reply, seq<Effect>))
  {
    var uri := CacheUri(params);
    var lookups := if kb.Some? then [StoreLookup(uri)] else [];
    if CacheHit(kb, uri) then (CachedReply(StoreGet(kb.value, uri)), lookups)
    else (FetchedReply(reply, params, uri, req, timestamp), lookups + [HttpGet(BaseUrl, params)])
  }

  /** The tail of `exec_async` once the response body is decoded. */
  method FinishSearch(data: Json, params: seq<(string, Json)>, uri: string, req: TrialsRequest, timestamp: string)
    returns (resp: Reply)
    ensures resp == TrialsReply(data, params, uri, req, timestamp)
  {
    if !data.JObj? {
      return Crashed(SearchFailedPrefix);
    }
    if !Truthy(Field(data.entries, "studies", JNull)) {
      return Success(NoTrialsPayload(params), None);
    }
    var results := ProcessTrialResults(data, params, timestamp);
    if results.Raised? {
      return Crashed(SearchFailedPrefix);
    }
    var items := KnowledgeItems(results.value, uri, req);
    return Success(TrialResultsJson(results.value), Some(items));
  }

  /** `exec_async`: validate, build the parameters, consult the cache, fetch
      and assemble the reply, recording the store lookup and the request. */
  method SearchTrials(toolParams: Json, kb: Option<Store>, reply: HttpReply, timestamp: string)
    returns (resp: Reply, effects: seq<Effect>)
    ensures (resp, effects) == SearchReply(toolParams, kb, reply, timestamp)
  {
    var request := ReadTrialsRequest(toolParams);
    if request.Raised? {
      return Crashed(SearchFailedPrefix), [];
    }
    var req := request.value;
    if NoSearchTerms(req) {
      return Failure(NoTermsMessage), [];
    }
    var built := BuildSearchParams(req.query, req.condition, req.intervention, req.location,
                                   req.recruitmentStatus, req.studyPhase, req.studyType,
                                   req.maxResults, req.sortBy, req.sortOrder);
    if built.Raised? {
      return Crashed(SearchFailedPrefix), [];
    }
    resp, effects := ConsultAndFetch(req, built.value, kb, reply, timestamp);
  }

  /** The part of `exec_async` after the parameters are built. */
  method ConsultAndFetch(req: TrialsRequest, params: seq<(string, Json)>, kb: Option<Store>, reply: HttpReply,
                         timestamp: string) returns (resp: Reply, effects: seq<Effect>)
    ensures (resp, effects) == CacheOrFetch(req, params, kb, reply, timestamp)
  {
    var uri := CacheUri(params);
    effects := [];
    if kb.Some? {
      effects := [StoreLookup(uri)];
      var cached := StoreGet(kb.value, uri);
      if Truthy(cached) {
        return CachedReply(cached), effects;
      }
    }
    effects := effects + [HttpGet(BaseUrl, params)];
    var failure := FetchFailure(reply);
    if failure.Some? {
      return failure.value, effects;
    }
    match reply.body {
      case Ok(data) => resp := FinishSearch(data, params, uri, req, timestamp);
      case Raised => assert false;
    }
  }
  /** A page size the API accepts from this connector: an integer of at most
      1000, or a boolean passed through by `min`. */
  predicate PageSizeCapped(p: Json)
  {
    (p.JInt? && p.i <= 1000) || p.JBool?
  }

  /** The built parameters carry the request's page size. */
  lemma ParamsPageSize(req: TrialsRequest)
    requires SearchParamsOf(req).Ok?
    ensures Lookup(SearchParamsOf(req).value, "pageSize") == Some(req.maxResults)
  {
    SearchParamsLookup(req.query, req.condition, req.intervention, req.location,
                       StatusFilter(req.recruitmentStatus).value, PhaseTerm(req.studyPhase).value,
                       TypeTerm(req.studyType).value, req.maxResults, req.sortBy, req.sortOrder);
  }

  /** `min(max_results, 1000)` is capped. */
  lemma RequestPageSizeCapped(toolParams: Json)
    requires ReadTrialsRequest(toolParams).Ok?
    ensures PageSizeCapped(ReadTrialsRequest(toolParams).value.maxResults)
  {
    PageSizeBounded(Field(toolParams.entries, "max_results", JInt(50)));
  }

  /** The only request sent is the studies query with the built parameters. */
  lemma SentRequest(req: TrialsRequest, params: seq<(string, Json)>, kb: Option<Store>, reply: HttpReply,
                    timestamp: string)
    ensures forall e :: e in CacheOrFetch(req, params, kb, reply, timestamp).1 && e.HttpGet? ==>
              e == HttpGet(BaseUrl, params)
  {
  }

  /** Every request that is sent goes to the studies endpoint and carries a
      page size of at most 1000. */
  lemma SentPageSizeCapped(toolParams: Json, kb: Option<Store>, reply: HttpReply, timestamp: string)
    ensures forall e :: e in SearchReply(toolParams, kb, reply, timestamp).1 && e.HttpGet? ==>
              e.url == BaseUrl && Lookup(e.params, "pageSize").Some? &&
              PageSizeCapped(Lookup(e.params, "pageSize").value)
  {
    var request := ReadTrialsRequest(toolParams);
    if request.Ok? && !NoSearchTerms(request.value) && SearchParamsOf(request.value).Ok? {
      var req := request.value;
      var params := SearchParamsOf(req).value;
      assert SearchReply(toolParams, kb, reply, timestamp) == CacheOrFetch(req, params, kb, reply, timestamp);
      SentRequest(req, params, kb, reply, timestamp);
      ParamsPageSize(req);
      RequestPageSizeCapped(toolParams);
    }
  }

  /** When the search terms are all empty the call fails before any store
      lookup or request. */
  lemma NoTermsNoEffects(toolParams: Json, kb: Option<Store>, reply: HttpReply, timestamp: string)
    requires ReadTrialsRequest(toolParams).Ok? && NoSearchTerms(ReadTrialsRequest(toolParams).value)
    ensures SearchReply(toolParams, kb, reply, timestamp) == (Failure(NoTermsMessage), [])
  {
  }

  /** Once the parameters are built: with a knowledge base the first effect
      is the lookup of the cache URI; a request is sent exactly when the
      lookup misses, and a hit returns the cached content. */
  lemma CacheHitSkipsRequest(req: TrialsRequest, params: seq<(string, Json)>, kb: Option<Store>, reply: HttpReply,
                             timestamp: string)
    ensures var r := CacheOrFetch(req, params, kb, reply, timestamp);
            var uri := CacheUri(params);
            && (kb.Some? <==> r.1 != [] && r.1[0] == StoreLookup(uri))
            && (CacheHit(kb, uri) <==> forall e :: e in r.1 ==> !e.HttpGet?)
            && (CacheHit(kb, uri) ==> r.0 == CachedReply(StoreGet(kb.value, uri)))
            && (!CacheHit(kb, uri) ==> r.1[|r.1| - 1] == HttpGet(BaseUrl, params))
  {
    var r := CacheOrFetch(req, params, kb, reply, timestamp);
    var uri := CacheUri(params);
    if !CacheHit(kb, uri) {
      assert r.1[|r.1| - 1] in r.1;
    }
  }

  /** A rate-limited or failed request is reported with its status. */
  lemma RequestFailureReported(req: TrialsRequest, params: seq<(string, Json)>, kb: Option<Store>,
                               reply: HttpReply, timestamp: string)
    requires !CacheHit(kb, CacheUri(params))
    ensures reply.status == 429 ==>
              CacheOrFetch(req, params, kb, reply, timestamp).0 == Failure(SearchFailedPrefix + RateLimitMessage)
    ensures reply.status != 429 && reply.status != 200 ==>
              CacheOrFetch(req, params, kb, reply, timestamp).0 ==
                Failure(SearchFailedPrefix + "ClinicalTrials.gov API returned status " + IntToStr(reply.status) +
                        ": " + reply.text)
  {
  }

  /** A successful fetch carries a knowledge item exactly when some studies
      were kept, and the item's `source_uri` is the cache URI. */
  lemma KnowledgeItemIffStudies(data: Json, params: seq<(string, Json)>, uri: string, req: TrialsRequest,
                                timestamp: string)
    requires TrialsReply(data, params, uri, req, timestamp).Success?
    requires TrialsReply(data, params, uri, req, timestamp).knowledgeItems.Some?
    ensures var r := TrialsReply(data, params, uri, req, timestamp);
            var items := r.knowledgeItems.value;
            && r.payload.JObj?
            && Lookup(r.payload.entries, "studies").Some?
            && |items| <= 1
            && (items != [] <==> Lookup(r.payload.entries, "studies").value != JArr([]))
            && (items != [] ==> items[0].JObj? && Lookup(items[0].entries, "source_uri") == Some(JStr(uri)))
  {
    var items := StudyItems(data).value;
    ResultsItems(TrialResults(params, Field(data.entries, "totalCount", JInt(|items|)),
                              FilterMap(items, ProcessSingleStudy), timestamp), uri, req);
  }

  /** The result set lists its studies, and the knowledge item, present
      exactly when there are studies, points at the cache URI. */
  lemma ResultsItems(results: TrialResults, uri: string, req: TrialsRequest)
    ensures var es := TrialResultsJson(results).entries;
            var items := KnowledgeItems(results, uri, req);
            && Lookup(es, "studies") == Some(JArr(results.studies))
            && |items| <= 1
            && (items != [] <==> results.studies != [])
            && (items != [] ==> items[0].JObj? && Lookup(items[0].entries, "source_uri") == Some(JStr(uri)))
  {
    var es := TrialResultsJson(results).entries;
    assert Sorting.UniqueKeys(es);
    LookupUnique(es, 3);
    if results.studies != [] {
      var item := KnowledgeItem(results, uri, req);
      assert Sorting.UniqueKeys(item.entries);
      LookupUnique(item.entries, 2);
    }
  }
}
