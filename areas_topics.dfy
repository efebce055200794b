/**
 * `useAreasWithTopics`: the fetched topics are grouped by their `area_id`
 * into a dictionary, the dictionary is merged into the ordered list of
 * areas, and the result is written into the hook's state unless the
 * effect has been cleaned up in the meantime. The two fetches are inputs.
 */
module AreasTopics {
  import opened Wrappers

  datatype AreaStatus = Draft | Published | Archived

  /** A row of `areas`. */
  datatype Area = Area(
    id: string,
    tenantId: string,
    name: string,
    slug: string,
    description: Option<string>,
    orderIndex: int,
    status: AreaStatus,
    createdAt: Option<string>,
    updatedAt: Option<string>)

  /** The `area_id` of a fetched row: a string, a database `null`, or
      absent when the row has no such column. */
  datatype AreaRef = AreaId(id: string) | NullAreaId | NoAreaId

  /** A row of `topics`; `areaId` is the `area_id` column the hook reads. */
  datatype Topic = Topic(
    id: string,
    examId: Option<string>,
    name: string,
    slug: string,
    weight: Option<int>,
    createdAt: Option<string>,
    areaId: AreaRef)

  /** An area with every field kept and its topics added. */
  datatype AreaWithTopics = AreaWithTopics(area: Area, topics: seq<Topic>)

  /** The dictionary key of a topic: the `area_id` converted to a property
      name, so `null` becomes `"null"` and an absent field `"undefined"`. */
  function KeyOf(t: Topic): string {
    match t.areaId
    case AreaId(k) => k
    case NullAreaId => "null"
    case NoAreaId => "undefined"
  }

  /** The topics whose key is `key`, in their fetched order. */
  function TopicsOf(topics: seq<Topic>, key: string): seq<Topic>
    decreases |topics|
  {
    if topics == [] then []
    else
      var last := topics[|topics| - 1];
      TopicsOf(topics[..|topics| - 1], key) + (if KeyOf(last) == key then [last] else [])
  }

  /** `topicsByArea[key] ?? []`. */
  function Lookup(byArea: map<string, seq<Topic>>, key: string): seq<Topic> {
    if key in byArea then byArea[key] else []
  }

  /** The grouping loop: for each topic in order, create the entry of its
      key when missing and push the topic onto it. */
  method GroupByArea(topics: seq<Topic>) returns (byArea: map<string, seq<Topic>>)
    ensures forall key :: Lookup(byArea, key) == TopicsOf(topics, key)
    ensures forall key :: key in byArea <==> TopicsOf(topics, key) != []
  {
    byArea := map[];
    var i := 0;
    while i < |topics|
      invariant i <= |topics|
      invariant byArea == GroupOf(topics[..i])
    {
      var t := topics[i];
      var key := KeyOf(t);
      ghost var prev := byArea;
      if key !in byArea {
        byArea := byArea[key := []];
      }
      byArea := byArea[key := byArea[key] + [t]];
      assert byArea == prev[key := Lookup(prev, key) + [t]];
      assert topics[..i + 1][..i] == topics[..i];
      i := i + 1;
    }
    assert topics[..i] == topics;
    GroupOfLists(topics);
  }

  /** The dictionary after the topics of `done` have been pushed in order. */
  function GroupOf(done: seq<Topic>): map<string, seq<Topic>>
    decreases |done|
  {
    if done == [] then map[]
    else
      var last := done[|done| - 1];
      var byArea := GroupOf(done[..|done| - 1]);
      byArea[KeyOf(last) := Lookup(byArea, KeyOf(last)) + [last]]
  }

  /** The dictionary lists under each key exactly the topics with that key,
      in order, and has an entry exactly for the keys some topic has. */
  lemma {:induction false} GroupOfLists(done: seq<Topic>)
    ensures forall key :: Lookup(GroupOf(done), key) == TopicsOf(done, key)
    ensures forall key :: key in GroupOf(done) <==> TopicsOf(done, key) != []
    decreases |done|
  {
    if done != [] {
      GroupOfLists(done[..|done| - 1]);
    }
  }

  /** The areas each given their looked-up topics, with every other field kept. */
  function Merge(areas: seq<Area>, byArea: map<string, seq<Topic>>): (r: seq<AreaWithTopics>)
    ensures |r| == |areas|
    ensures forall i :: 0 <= i < |r| ==> r[i].area == areas[i]
  {
    seq(|areas|, i requires 0 <= i < |areas| => AreaWithTopics(areas[i], Lookup(byArea, areas[i].id)))
  }

  /** What the join should produce: each area, in order, with exactly the
      fetched topics whose `area_id` is its id, in fetched order. */
  function Joined(areas: seq<Area>, topics: seq<Topic>): seq<AreaWithTopics> {
    seq(|areas|, i requires 0 <= i < |areas| => AreaWithTopics(areas[i], TopicsOf(topics, areas[i].id)))
  }

  /** The grouping loop followed by the merge. */
  method Join(areas: seq<Area>, topics: seq<Topic>) returns (combined: seq<AreaWithTopics>)
    ensures |combined| == |areas|
    ensures forall i :: 0 <= i < |areas| ==>
      combined[i].area == areas[i] && combined[i].topics == TopicsOf(topics, areas[i].id)
    ensures combined == Joined(areas, topics)
  {
    var byArea := GroupByArea(topics);
    combined := Merge(areas, byArea);
  }

  /** A topic is listed under `key` exactly when it was fetched with that key. */
  lemma {:induction false} TopicsOfMembers(topics: seq<Topic>, key: string, t: Topic)
    ensures t in TopicsOf(topics, key) <==> t in topics && KeyOf(t) == key
    decreases |topics|
  {
    if topics != [] {
      var init := topics[..|topics| - 1];
      TopicsOfMembers(init, key, t);
      assert topics == init + [topics[|topics| - 1]];
    }
  }

  /** The grouped list keeps the fetched relative order: grouping the
      concatenation of two fetches lists the first one's topics before the
      second one's. */
  lemma {:induction false} TopicsOfAppend(a: seq<Topic>, b: seq<Topic>, key: string)
    ensures TopicsOf(a + b, key) == TopicsOf(a, key) + TopicsOf(b, key)
    decreases |b|
  {
    if b == [] {
      assert a + b == a;
    } else {
      TopicsOfAppend(a, b[..|b| - 1], key);
      TopicsOfAppendStep(a, b, key);
    }
  }

  /** The step of `TopicsOfAppend`: the last topic of `b` extends both sides alike. */
  lemma TopicsOfAppendStep(a: seq<Topic>, b: seq<Topic>, key: string)
    requires b != []
    requires TopicsOf(a + b[..|b| - 1], key) == TopicsOf(a, key) + TopicsOf(b[..|b| - 1], key)
    ensures TopicsOf(a + b, key) == TopicsOf(a, key) + TopicsOf(b, key)
  {
    var n := |b| - 1;
    SplitLast(a, b);
    TopicsOfSnoc(a + b[..n], b[n], key);
    TopicsOfSnoc(b[..n], b[n], key);
    var own := if KeyOf(b[n]) == key then [b[n]] else [];
    assert (TopicsOf(a, key) + TopicsOf(b[..n], key)) + own == TopicsOf(a, key) + (TopicsOf(b[..n], key) + own);
  }

  lemma SplitLast(a: seq<Topic>, b: seq<Topic>)
    requires b != []
    ensures a + b == (a + b[..|b| - 1]) + [b[|b| - 1]]
    ensures b == b[..|b| - 1] + [b[|b| - 1]]
  {
  }

  /** One more topic at the end extends only its own key's list. */
  lemma TopicsOfSnoc(xs: seq<Topic>, t: Topic, key: string)
    ensures TopicsOf(xs + [t], key) == TopicsOf(xs, key) + (if KeyOf(t) == key then [t] else [])
  {
    assert (xs + [t])[..|xs|] == xs;
  }

  /** An area with no matching topic gets the empty list, and a topic whose
      `area_id` matches no area appears under no area. */
  lemma JoinedMatching(areas: seq<Area>, topics: seq<Topic>, t: Topic)
    ensures forall i :: 0 <= i < |areas| && (forall u :: u in topics ==> KeyOf(u) != areas[i].id) ==>
      Joined(areas, topics)[i].topics == []
    ensures (forall i :: 0 <= i < |areas| ==> areas[i].id != KeyOf(t)) ==>
      forall i :: 0 <= i < |areas| ==> t !in Joined(areas, topics)[i].topics
  {
    forall i | 0 <= i < |areas| && (forall u :: u in topics ==> KeyOf(u) != areas[i].id)
      ensures Joined(areas, topics)[i].topics == []
    {
      var ts := TopicsOf(topics, areas[i].id);
      if ts != [] {
        TopicsOfMembers(topics, areas[i].id, ts[0]);
        assert false;
      }
    }
    forall i | 0 <= i < |areas| ensures t in Joined(areas, topics)[i].topics ==> KeyOf(t) == areas[i].id {
      TopicsOfMembers(topics, areas[i].id, t);
    }
  }

  /** The ids of the areas. */
  function Ids(areas: seq<Area>): seq<string> {
    seq(|areas|, i requires 0 <= i < |areas| => areas[i].id)
  }

  /** The fetched topics whose key is the id of some area. */
  function Matching(topics: seq<Topic>, ids: seq<string>): seq<Topic>
    decreases |topics|
  {
    if topics == [] then []
    else
      var last := topics[|topics| - 1];
      Matching(topics[..|topics| - 1], ids) + (if KeyOf(last) in ids then [last] else [])
  }

  /** The number of topics placed under the areas. */
  function TopicCount(rows: seq<AreaWithTopics>): nat
    decreases |rows|
  {
    if rows == [] then 0 else |rows[0].topics| + TopicCount(rows[1..])
  }

  /** How many of `ids` equal `key`. */
  function Occurrences(ids: seq<string>, key: string): nat
    decreases |ids|
  {
    if ids == [] then 0 else (if ids[0] == key then 1 else 0) + Occurrences(ids[1..], key)
  }

  /** Each topic is counted once for every area whose id is its key. */
  lemma {:induction false} CountAddTopic(areas: seq<Area>, topics: seq<Topic>, t: Topic)
    ensures TopicCount(Joined(areas, topics + [t])) == TopicCount(Joined(areas, topics)) + Occurrences(Ids(areas), KeyOf(t))
    decreases |areas|
  {
    var ts := topics + [t];
    assert ts[..|ts| - 1] == topics;
    if areas != [] {
      CountAddTopic(areas[1..], topics, t);
      assert Joined(areas, ts)[1..] == Joined(areas[1..], ts);
      assert Joined(areas, topics)[1..] == Joined(areas[1..], topics);
      assert Ids(areas)[1..] == Ids(areas[1..]);
    }
  }

  /** With distinct area ids every key occurs at most once. */
  lemma {:induction false} OccurrencesDistinct(ids: seq<string>, key: string)
    requires forall i, j :: 0 <= i < j < |ids| ==> ids[i] != ids[j]
    ensures Occurrences(ids, key) == if key in ids then 1 else 0
    decreases |ids|
  {
    if ids != [] {
      OccurrencesDistinct(ids[1..], key);
      if ids[0] == key {
        assert key !in ids[1..];
      }
    }
  }

  /** With distinct area ids, the topics placed under the areas are exactly
      as many as the fetched topics that match some area. */
  lemma {:induction false} JoinedCount(areas: seq<Area>, topics: seq<Topic>)
    requires forall i, j :: 0 <= i < j < |areas| ==> areas[i].id != areas[j].id
    ensures TopicCount(Joined(areas, topics)) == |Matching(topics, Ids(areas))|
    decreases |topics|
  {
    if topics == [] {
      ZeroCount(areas);
    } else {
      var n := |topics| - 1;
      var init := topics[..n];
      JoinedCount(areas, init);
      assert topics == init + [topics[n]];
      CountAddTopic(areas, init, topics[n]);
      OccurrencesDistinct(Ids(areas), KeyOf(topics[n]));
    }
  }

  lemma {:induction false} ZeroCount(areas: seq<Area>)
    ensures TopicCount(Joined(areas, [])) == 0
    decreases |areas|
  {
    if areas != [] {
      ZeroCount(areas[1..]);
      assert Joined(areas, [])[1..] == Joined(areas[1..], []);
    }
  }

  // ---------------------------------------------------------------------
  // The hook's state
  // ---------------------------------------------------------------------

  /** How the `Promise.all` of the two fetches settles: both lists, or a
      rejection whose `err?.message` may be absent. */
  datatype Fetched = Both(areas: seq<Area>, topics: seq<Topic>) | Rejected(message: Option<string>)

  const DefaultError: string := "Error fetching areas/topics"

  datatype HookState = HookState(areas: seq<AreaWithTopics>, loading: bool, error: Option<string>)

  /** The state after the `then`/`catch` and `finally` callbacks of a
      mounted effect. */
  function Settled(s: HookState, f: Fetched): HookState {
    match f
    case Both(areas, topics) => HookState(Joined(areas, topics), false, None)
    case Rejected(message) => s.(error := Some(message.GetOr(DefaultError)), loading := false)
  }

  /** A success replaces the list by the join and clears the error; a
      failure keeps the list and reports the message or the default one;
      both end the loading. */
  lemma SettledOutcome(s: HookState, f: Fetched)
    ensures !Settled(s, f).loading
    ensures f.Both? ==> Settled(s, f).error.None? && |Settled(s, f).areas| == |f.areas|
    ensures f.Rejected? ==> Settled(s, f).areas == s.areas && Settled(s, f).error.Some?
    ensures f.Rejected? && f.message.None? ==> Settled(s, f).error == Some(DefaultError)
    ensures f.Rejected? && f.message.Some? ==> Settled(s, f).error == f.message
    ensures f.Both? ==> Settled(s, f).areas == Joined(f.areas, f.topics)
  {
  }

  /** The hook: its React state, and the `mounted` flag of each run of the
      effect in the order the runs started. Every run has its own closure
      variable, and only that run's cleanup clears it. */
  datatype Hook = Hook(state: HookState, runs: seq<bool>)

  /** What happens to the hook: a run of the effect, the cleanup of run
      `run`, or the settlement of run `run`'s fetches. */
  datatype Event = EffectRun | Cleanup(run: nat) | Settlement(run: nat, fetched: Fetched)

  const Initial: Hook := Hook(HookState([], true, None), [])

  /** One event. Only runs that have started have a cleanup and a
      settlement; other indices leave the hook as it is. */
  function Step(h: Hook, e: Event): Hook {
    match e
    case EffectRun => Hook(h.state.(loading := true), h.runs + [true])
    case Cleanup(k) => if k < |h.runs| then h.(runs := h.runs[k := false]) else h
    case Settlement(k, f) => if k < |h.runs| && h.runs[k] then h.(state := Settled(h.state, f)) else h
  }

  /** The events in order. */
  function Steps(h: Hook, es: seq<Event>): Hook
    decreases |es|
  {
    if es == [] then h else Steps(Step(h, es[0]), es[1..])
  }

  /** A cleaned-up run stays cleaned up, whatever runs start or end later. */
  lemma {:induction false} CleanedRunStaysCleaned(h: Hook, k: nat, es: seq<Event>)
    requires k < |h.runs| && !h.runs[k]
    ensures k < |Steps(h, es).runs| && !Steps(h, es).runs[k]
    decreases |es|
  {
    if es != [] {
      var h1 := Step(h, es[0]);
      assert k < |h1.runs| && !h1.runs[k];
      CleanedRunStaysCleaned(h1, k, es[1..]);
    }
  }

  /** The settlement of a cleaned-up run changes nothing, even when later
      runs are mounted; the settlement of a mounted run applies its
      callbacks and leaves every flag as it is. */
  lemma StaleSettlementIgnored(h: Hook, k: nat, es: seq<Event>, f: Fetched)
    requires k < |h.runs| && !h.runs[k]
    ensures Step(Steps(h, es), Settlement(k, f)) == Steps(h, es)
  {
    CleanedRunStaysCleaned(h, k, es);
  }

  /** A run mounted again after its predecessor's cleanup does not see the
      predecessor's late rejection. */
  lemma RemountIgnoresStaleRejection()
    ensures var h := Steps(Initial, [EffectRun, Cleanup(0), EffectRun, Settlement(0, Rejected(Some("stale")))]);
      h.state.error.None? && h.state.loading && h.runs == [false, true]
  {
    var es := [EffectRun, Cleanup(0), EffectRun, Settlement(0, Rejected(Some("stale")))];
    var h1 := Step(Initial, EffectRun);
    var h2 := Step(h1, Cleanup(0));
    assert h2 == Hook(HookState([], true, None), [false]);
    assert es[..2] == [EffectRun, Cleanup(0)];
    assert [EffectRun, Cleanup(0)][1..] == [Cleanup(0)];
    assert Steps(h1, [Cleanup(0)]) == h2 by {
      assert [Cleanup(0)][1..] == [];
    }
    assert Steps(Initial, es[..2]) == h2;
    StaleSettlementIgnored(h2, 0, [EffectRun], Rejected(Some("stale")));
    StepsAppend(h2, [EffectRun], [Settlement(0, Rejected(Some("stale")))]);
    StepsAppend(Initial, es[..2], es[2..]);
    assert es[..2] + es[2..] == es;
    assert es[2..] == [EffectRun] + [Settlement(0, Rejected(Some("stale")))];
  }

  /** Running two event lists one after the other. */
  lemma {:induction false} StepsAppend(h: Hook, a: seq<Event>, b: seq<Event>)
    ensures Steps(h, a + b) == Steps(Steps(h, a), b)
    decreases |a|
  {
    if a == [] {
      assert a + b == b;
    } else {
      assert (a + b)[0] == a[0] && (a + b)[1..] == a[1..] + b;
      StepsAppend(Step(h, a[0]), a[1..], b);
    }
  }

  /** The hook's state and the flags of its effect runs. */
  class AreasHook {
    var areas: seq<AreaWithTopics>
    var loading: bool
    var error: Option<string>
    var runs: seq<bool>

    function Value(): Hook
      reads this
    {
      Hook(HookState(areas, loading, error), runs)
    }

    constructor ()
      ensures Value() == Initial
    {
      areas := [];
      loading := true;
      error := None;
      runs := [];
    }

    /** A run of the effect up to the fetch: `mounted = true; setLoading(true)`.
        The result names the run. */
    method Mount() returns (run: nat)
      modifies this
      ensures run == |old(runs)| && run < |runs| && runs[run]
      ensures Value() == Step(old(Value()), EffectRun)
    {
      run := |runs|;
      runs := runs + [true];
      loading := true;
    }

    /** The cleanup of run `run`: `mounted = false` in that run's closure. */
    method Unmount(run: nat)
      requires run < |runs|
      modifies this
      ensures Value() == Step(old(Value()), Cleanup(run))
    {
      runs := runs[run := false];
    }

    /** The settlement callbacks of run `run`; once that run is cleaned up
        none of their setters runs. */
    method Settle(run: nat, f: Fetched)
      requires run < |runs|
      modifies this
      ensures Value() == Step(old(Value()), Settlement(run, f))
    {
      if !runs[run] {
        return;
      }
      match f {
        case Both(areasList, topicsList) =>
          var combined := Join(areasList, topicsList);
          areas := combined;
          error := None;
        case Rejected(message) =>
          error := Some(message.GetOr(DefaultError));
      }
      loading := false;
    }
  }
}
