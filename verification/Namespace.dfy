/** pkg/kube/namespace.go: creating a namespace or upserting labels on it, while others race. */
module Namespace {
  import opened Text
  import opened Cluster

  type Labels = map<string, string>

  /** A stored namespace; `version` changes with every change of the object. */
  datatype Namespace = Namespace(labels: Labels, version: nat, terminating: bool)

  datatype Reply<T> = Ok(value: T) | NotFound | AlreadyExists | Conflict | Failed

  /** What somebody else does to the namespace just before one of our calls arrives. */
  datatype Meddling = Nothing | Put(labels: Labels, terminating: bool) | Drop

  /** One change of the stored namespace, by one of our calls or by somebody else. */
  datatype Change = Change(ours: bool, before: Option<Namespace>, after: Option<Namespace>)

  /** The labels after an upsert. An absent label reads as "", so a wanted "" is not added. */
  function Upserted(has: Labels, wanted: Labels): Labels {
    has + map k | k in wanted && Lookup(has, k) != wanted[k] :: wanted[k]
  }

  /** Every wanted label is there; a wanted empty one may instead be absent. */
  predicate Carries(has: Labels, wanted: Labels) {
    forall k | k in wanted :: Lookup(has, k) == wanted[k]
  }

  /** Nothing but wanted keys differs. */
  ghost predicate KeepsOthers(before: Labels, after: Labels, wanted: Labels) {
    forall k | k !in wanted :: (k in before <==> k in after) && (k in before ==> after[k] == before[k])
  }

  /** Upserting overwrites the wanted keys, keeps the others, never removes one, is idempotent, and
      changes nothing exactly when the wanted labels were already carried. Read with absent as "",
      any wanted value is carried; as a key of the map, exactly the non-empty ones are. */
  lemma UpsertedEffect(has: Labels, wanted: Labels)
    ensures var after := Upserted(has, wanted);
      && Carries(after, wanted) && KeepsOthers(has, after, wanted) && has.Keys <= after.Keys
      && Upserted(after, wanted) == after
      && (after == has <==> Carries(has, wanted))
      && (forall k | k in wanted && k !in has :: k in after <==> wanted[k] != "")
  {
    var after := Upserted(has, wanted);
    if Carries(has, wanted) {
      assert after == has;
    } else {
      var k :| k in wanted && Lookup(has, k) != wanted[k];
      assert after[k] == wanted[k];
    }
    assert Upserted(after, wanted) == after;
  }

  /** A wanted empty label is not added where it is missing. */
  lemma EmptyLabelSkipped(k: string)
    ensures Upserted(map[], map[k := ""]) == map[] && Upserted(map[k := "x"], map[k := ""]) == map[k := ""]
  {
    UpsertedEffect(map[], map[k := ""]);
    var after := Upserted(map[k := "x"], map[k := ""]);
    assert after[k] == "";
  }

  /** The API server's side of one namespace, with a script of what others do between our calls. */
  class NamespaceApi {
    var current: Option<Namespace>
    var last: nat   // the highest version handed out
    var clock: nat
    const script: nat -> Meddling
    const fault: nat -> Fault
    ghost var history: seq<Change>
    ghost const first: Option<Namespace>

    constructor (current: Option<Namespace>, script: nat -> Meddling, fault: nat -> Fault)
      ensures Valid() && this.current == current && this.script == script && this.fault == fault
      ensures clock == 0 && history == []
    {
      this.current, this.script, this.fault, this.clock := current, script, fault, 0;
      this.last := if current.Some? then current.value.version else 0;
      this.history, this.first := [], current;
    }

    /** The recorded changes lead from the first state to the current one. */
    ghost predicate Valid() reads this {
      && (current.Some? ==> current.value.version <= last)
      && current == StateAfter(first, history)
      && Chained(first, history)
    }

    /** A change of the stored namespace and its entry in the history. */
    method Store(next: Option<Namespace>, ours: bool)
      requires Valid() && (next.Some? ==> next.value.version == last + 1)
      modifies this
      ensures Valid() && current == next && clock == old(clock)
      ensures last == old(last) + if next.Some? then 1 else 0
      ensures history == old(history) + [Change(ours, old(current), next)]
    {
      ChainedSnoc(first, history, Change(ours, current, next));
      hide Chained, StateAfter;
      history := history + [Change(ours, current, next)];
      current := next;
      if next.Some? { last := last + 1; }
    }

    /** Others act, then our call is under way. */
    method Advance()
      requires Valid()
      modifies this
      ensures Valid() && clock == old(clock) + 1 && last >= old(last)
      ensures current.Some? && current.value.version <= old(last) ==> current == old(current)
      ensures OthersOnly(old(history), history)
      ensures match script(clock)
              case Nothing => current == old(current) && history == old(history)
              case Put(labels, t) =>
                && current == Some(Namespace(labels, old(last) + 1, t))
                && history == old(history) + [Change(false, old(current), current)]
              case Drop => current.None? && history == old(history) + [Change(false, old(current), None)]
    {
      clock := clock + 1;
      match script(clock)
      case Nothing =>
      case Put(labels, t) => Store(Some(Namespace(labels, last + 1, t)), false);
      case Drop => Store(None, false);
    }

    method Get() returns (r: Reply<Namespace>)
      requires Valid()
      modifies this
      ensures Valid() && clock == old(clock) + 1 && last >= old(last)
      ensures OthersOnly(old(history), history)
      ensures script(clock).Nothing? ==> current == old(current)
      ensures r == if !fault(clock).NoFault? then Failed else if current.Some? then Ok(current.value) else NotFound
    {
      Advance();
      if !fault(clock).NoFault? { return Failed; }
      if current.None? { return NotFound; }
      return Ok(current.value);
    }

    /** A rejected or refused create changes nothing; otherwise the object is there, even if the
        reply is lost. */
    method Create(labels: Labels) returns (r: Reply<Namespace>)
      requires Valid()
      modifies this
      ensures Valid() && clock == old(clock) + 1 && last >= old(last)
      ensures Wrote(old(history), history, None, current) || OthersOnly(old(history), history)
      ensures r.Ok? ==> current == Some(r.value) && !r.value.terminating && Wrote(old(history), history, None, current)
      ensures !OthersOnly(old(history), history) ==> current.Some? && current.value.labels == labels
      ensures r.AlreadyExists? ==> current.Some? && OthersOnly(old(history), history)
      ensures r.AlreadyExists? && script(clock).Put? ==> current.value.labels == script(clock).labels
      ensures fault(clock).NoFault? ==>
        match script(clock)
        case Nothing => if old(current).None? then r.Ok? else r.AlreadyExists?
        case Put(_, _) => r.AlreadyExists?
        case Drop => r.Ok?
      ensures !r.NotFound? && !r.Conflict?
    {
      hide OthersOnly, Wrote, StateAfter, Valid;
      Advance();
      if fault(clock).Rejected? { return Failed; }
      if current.Some? { return if fault(clock).NoFault? then AlreadyExists else Failed; }
      ghost var mid := history;
      Store(Some(Namespace(labels, last + 1, false)), true);
      OurWrite(old(history), mid, history, None, current);
      return if fault(clock).NoFault? then Ok(current.value) else Failed;
    }

    /** An update whose base is stale is rejected. */
    method Update(base: Namespace, labels: Labels) returns (r: Reply<Namespace>)
      requires Valid() && current == Some(base)
      modifies this
      ensures Valid() && clock == old(clock) + 1 && last >= old(last)
      ensures Wrote(old(history), history, Some(base), current) || OthersOnly(old(history), history)
      ensures r.Ok? ==> current == Some(r.value) && Wrote(old(history), history, Some(base), current)
      ensures !OthersOnly(old(history), history) ==> current.Some? && current.value.labels == labels
      ensures r.Conflict? || r.NotFound? ==> current != Some(base) && OthersOnly(old(history), history)
      ensures script(clock).Nothing? && fault(clock).NoFault? ==> r.Ok?
    {
      hide OthersOnly, Wrote, StateAfter;
      Advance();
      if fault(clock).Rejected? { return Failed; }
      if current.None? { return if fault(clock).NoFault? then NotFound else Failed; }
      if current.value.version != base.version { return if fault(clock).NoFault? then Conflict else Failed; }
      ghost var mid := history;
      Store(Some(Namespace(labels, last + 1, base.terminating)), true);
      OurWrite(old(history), mid, history, Some(base), current);
      return if fault(clock).NoFault? then Ok(current.value) else Failed;
    }

    /** An accepted delete only makes the namespace terminating; it disappears later. */
    method Delete() returns (r: Reply<Namespace>)
      requires Valid()
      modifies this
      ensures Valid() && clock == old(clock) + 1
      ensures script(clock).Nothing? && fault(clock).Rejected? ==> current == old(current)
      ensures !fault(clock).Rejected? ==> current.None? || current.value.terminating
      ensures r.NotFound? ==> current.None?
      ensures r.Ok? || r.NotFound? <==> fault(clock).NoFault?
    {
      Advance();
      if fault(clock).Rejected? { return Failed; }
      if current.None? { return if fault(clock).NoFault? then NotFound else Failed; }
      Store(Some(current.value.(version := last + 1, terminating := true)), true);
      return if fault(clock).NoFault? then Ok(current.value) else Failed;
    }
  }

  ghost function StateAfter(first: Option<Namespace>, history: seq<Change>): Option<Namespace> {
    if |history| == 0 then first else history[|history| - 1].after
  }

  ghost predicate Chained(first: Option<Namespace>, history: seq<Change>) {
    forall i | 0 <= i < |history| :: history[i].before == StateAfter(first, history[..i])
  }

  lemma ChainedSnoc(first: Option<Namespace>, history: seq<Change>, next: Change)
    requires Chained(first, history) && next.before == StateAfter(first, history)
    ensures Chained(first, history + [next]) && StateAfter(first, history + [next]) == next.after
  {
    var more := history + [next];
    forall i | 0 <= i < |more| ensures more[i].before == StateAfter(first, more[..i]) {
      assert more[..i] == history[..i];
      assert history[..|history|] == history;
    }
  }

  /** Since `was`, only others changed the namespace. */
  ghost predicate OthersOnly(was: seq<Change>, now: seq<Change>) {
    was <= now && forall i | |was| <= i < |now| :: !now[i].ours
  }

  /** Since `was`, we changed the namespace once, as the last change of all: it replaced `before`
      by `after`. */
  ghost predicate Wrote(was: seq<Change>, now: seq<Change>, before: Option<Namespace>, after: Option<Namespace>) {
    && was <= now && |was| < |now| && now[|now| - 1] == Change(true, before, after)
    && forall i | |was| <= i < |now| - 1 :: !now[i].ours
  }

  /** Nobody interferes and no call fails from now on. */
  ghost predicate Undisturbed(api: NamespaceApi, from: nat)
    reads api
  {
    forall t: nat | t > from :: api.script(t).Nothing? && api.fault(t).NoFault?
  }

  /** Somebody else creates the namespace just before our Create arrives, and that is all. */
  ghost predicate RaceLost(api: NamespaceApi, from: nat)
    reads api
  {
    && api.current.None? && api.script(from + 2).Put?
    && forall t: nat | t > from :: api.fault(t).NoFault? && (t != from + 2 ==> api.script(t).Nothing?)
  }

  /** How ensureNamespace ended up: what its last write was about. */
  datatype Outcome = Created | Unchanged | Updated(base: Namespace)

  /** What ensureNamespace did, as the history tells it. Its only write, if there is one, either
      created the missing namespace with the wanted labels or replaced the very state `base` by one
      that has all other labels of `base` and carries the wanted ones. */
  ghost predicate Did(how: Outcome, was: seq<Change>, now: seq<Change>, current: Option<Namespace>, wanted: Labels) {
    match how
    case Created => current.Some? && current.value.labels == wanted && Wrote(was, now, None, current)
    case Unchanged => OthersOnly(was, now)
    case Updated(base) =>
      && current.Some? && current.value.labels == Upserted(base.labels, wanted)
      && KeepsOthers(base.labels, current.value.labels, wanted)
      && Wrote(was, now, Some(base), current)
  }

  /** ensureNamespace, for every script of what others do and of what fails. Its writes are those
      of Did, failed calls with a lost reply included. A nil return means that the state which the
      call last read or wrote - the namespace as it is when that call returns - carries every wanted
      label. */
  method EnsureNamespace(api: NamespaceApi, wanted: Labels) returns (ok: bool, ghost how: Outcome)
    requires api.Valid()
    modifies api
    ensures api.Valid() && Did(how, old(api.history), api.history, api.current, wanted)
    ensures ok ==> api.current.Some? && Carries(api.current.value.labels, wanted)
    ensures old(Undisturbed(api, api.clock)) ==>
      ok && api.current.value.labels ==
        if old(api.current).None? then wanted else Upserted(old(api.current).value.labels, wanted)
    ensures old(RaceLost(api, api.clock)) ==>
      ok && api.current.value.labels == Upserted(old(api.script(api.clock + 2)).labels, wanted)
  {
    hide OthersOnly, Wrote, Upserted, Carries, KeepsOthers, StateAfter, NamespaceApi.Valid;
    how := Unchanged;
    ghost var h0 := api.history;
    var got := api.Get();
    if !got.Ok? {
      if !got.NotFound? { return false, how; }
      ghost var h1 := api.history;
      var created := api.Create(wanted);
      Chain(h0, h1, api.history, None, api.current);
      if !OthersOnly(h1, api.history) { how := Created; }
      CreatedCarries(wanted);
      if created.Ok? { return true, Created; }
      if !created.AlreadyExists? { return false, how; }
      // Lost the race.
      ghost var h2 := api.history;
      got := api.Get();
      Chain(h0, h2, api.history, None, None);
      if !got.Ok? { return false, Unchanged; }
    }
    var ns := got.value;
    var labels, mutated := MergeLabels(ns.labels, wanted);
    UpsertedEffect(ns.labels, wanted);
    if !mutated { return true, Unchanged; }
    ghost var h3 := api.history;
    var updated := api.Update(ns, labels);
    Chain(h0, h3, api.history, Some(ns), api.current);
    return updated.Ok?, if OthersOnly(h3, api.history) && !updated.Ok? then Unchanged else Updated(ns);
  }

  lemma OurWrite(was: seq<Change>, mid: seq<Change>, now: seq<Change>, before: Option<Namespace>,
                 after: Option<Namespace>)
    requires OthersOnly(was, mid) && now == mid + [Change(true, before, after)]
    ensures Wrote(was, now, before, after) && !OthersOnly(was, now)
  {
  }

  /** Our calls one after the other. */
  lemma Chain(was: seq<Change>, mid: seq<Change>, now: seq<Change>, before: Option<Namespace>, after: Option<Namespace>)
    ensures OthersOnly(was, mid) && OthersOnly(mid, now) ==> OthersOnly(was, now)
    ensures OthersOnly(was, mid) && Wrote(mid, now, before, after) ==> Wrote(was, now, before, after)
    ensures Wrote(mid, now, before, after) ==> !OthersOnly(mid, now)
  {
  }

  lemma CreatedCarries(wanted: Labels)
    ensures Carries(wanted, wanted)
  {
  }

  /** The loop over the wanted labels. They come in whatever order the map yields them, and the
      result is nevertheless a function of the two maps. */
  method MergeLabels(has: Labels, wanted: Labels) returns (labels: Labels, mutated: bool)
    ensures labels == Upserted(has, wanted)
    ensures mutated <==> labels != has
  {
    labels, mutated := has, false;
    var rest := wanted.Keys;
    while rest != {}
      invariant rest <= wanted.Keys
      invariant forall k :: Merged(has, wanted, wanted.Keys - rest, labels, k)
      invariant mutated <==> Differs(has, wanted, wanted.Keys - rest)
      decreases rest
    {
      var k :| k in rest;
      ghost var done := wanted.Keys - rest;
      assert Merged(has, wanted, done, labels, k);
      ghost var before := labels;
      if Lookup(labels, k) != wanted[k] {
        labels := labels[k := wanted[k]];
        mutated := true;
      }
      rest := rest - {k};
      assert wanted.Keys - rest == done + {k};
      forall l ensures Merged(has, wanted, done + {k}, labels, l) {
        assert Merged(has, wanted, done, before, l);
      }
    }
    assert wanted.Keys - rest == wanted.Keys;
    FullyMerged(has, wanted, labels);
  }

  /** The state of label k once the wanted labels in `done` are merged. */
  ghost predicate Merged(has: Labels, wanted: Labels, done: set<string>, labels: Labels, k: string) {
    if k in wanted && k in done && Lookup(has, k) != wanted[k] then k in labels && labels[k] == wanted[k]
    else (k in labels <==> k in has) && (k in has ==> labels[k] == has[k])
  }

  ghost predicate Differs(has: Labels, wanted: Labels, done: set<string>) {
    exists k :: k in wanted && k in done && Lookup(has, k) != wanted[k]
  }

  lemma FullyMerged(has: Labels, wanted: Labels, labels: Labels)
    requires forall k :: Merged(has, wanted, wanted.Keys, labels, k)
    ensures labels == Upserted(has, wanted)
    ensures labels != has <==> Differs(has, wanted, wanted.Keys)
  {
    forall k ensures k in labels <==> k in Upserted(has, wanted) {
      assert Merged(has, wanted, wanted.Keys, labels, k);
    }
    forall k | k in labels ensures labels[k] == Upserted(has, wanted)[k] {
      assert Merged(has, wanted, wanted.Keys, labels, k);
    }
    if k :| k in wanted && Lookup(has, k) != wanted[k] {
      assert Merged(has, wanted, wanted.Keys, labels, k);
    } else {
      assert labels == has;
    }
  }

  /** deleteNamespace: a missing namespace is as good as a deleted one. It does not wait: on
      success the namespace is gone or terminating. */
  method DeleteNamespace(api: NamespaceApi) returns (ok: bool)
    requires api.Valid()
    modifies api
    ensures api.Valid()
    ensures ok ==> api.current.None? || api.current.value.terminating
    ensures ok <==> api.fault(api.clock).NoFault?
    ensures !ok && api.fault(api.clock).Rejected? && api.script(api.clock).Nothing? ==> api.current == old(api.current)
  {
    var r := api.Delete();
    return r.Ok? || r.NotFound?;
  }
}
