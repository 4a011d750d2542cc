/**
 * The per-save transmission ledger ("GPU_server_result_transmission" in a save's
 * lookup_table.json) and the project's model registry
 * ("fine_tuned_model_name_mapping" in project_lookup_table.json).
 *
 * Three actors move a ledger entry: the dispatcher marks it in flight and, when the
 * remote run succeeds, adopts the remote copy and clears it; the remote worker sets
 * finished = 1 in its output copy; the reconciliation sweep closes an entry whose
 * remote copy says finished.
 */
module Ledger {
  import opened Wrappers

  /** The two kinds of remote job, "few_shot_recognition" and "few_shot_training". */
  datatype Kind = Recognition | Training

  function Other(k: Kind): (o: Kind)
    ensures o != k
  {
    match k
    case Recognition => Training
    case Training => Recognition
  }

  /**
   * One ledger entry. Only training entries carry "model_key" and "model_name";
   * a missing key, or a PHP null stored there, is None.
   */
  datatype Entry = Entry(finished: int, sessionId: string, modelKey: Option<string>, modelName: Option<string>)

  datatype Transmission = Transmission(recognition: Entry, training: Entry)
  {
    function Get(k: Kind): Entry
    {
      match k
      case Recognition => recognition
      case Training => training
    }

    function Set(k: Kind, e: Entry): (t: Transmission)
      ensures t.Get(k) == e
      ensures t.Get(Other(k)) == Get(Other(k))
    {
      match k
      case Recognition => this.(recognition := e)
      case Training => this.(training := e)
    }
  }

  /** No job of this kind is running and nothing waits to be transferred. */
  predicate Idle(e: Entry)
  {
    e.finished == 1 && e.sessionId == ""
  }

  /** The sweep's test for "results may be waiting on the GPU server": finished === 0. */
  predicate Awaiting(e: Entry)
  {
    e.finished == 0
  }

  /** A training entry that also forgot which model it was producing. */
  predicate TrainingIdle(e: Entry)
  {
    Idle(e) && e.modelKey == Some("") && e.modelName == Some("")
  }

  /** The template ledger, used when a lookup table predates the ledger. */
  const DefaultTransmission: Transmission :=
    Transmission(Entry(1, "", None, None), Entry(1, "", Some(""), Some("")))

  /** The ledger the dispatcher starts from: the stored one, or the template when absent. */
  function LedgerOrDefault(stored: Option<Transmission>): (t: Transmission)
    ensures stored.None? ==> Idle(t.recognition) && TrainingIdle(t.training)
    ensures stored.Some? ==> t == stored.value
  {
    stored.GetOr(DefaultTransmission)
  }

  /**
   * The dispatcher's mark before it contacts the GPU server: the entry of kind k
   * records that session sessionId is running; a training entry also records the key
   * and the user-given name of the model being produced.
   */
  function MarkInFlight(t: Transmission, k: Kind, session: string, key: Option<string>, name: Option<string>): (r: Transmission)
    ensures Awaiting(r.Get(k)) && r.Get(k).sessionId == session
    ensures r.Get(Other(k)) == t.Get(Other(k))
    ensures k == Training ==> r.training.modelKey == key && r.training.modelName == name
    ensures k == Recognition ==>
              r.recognition.modelKey == t.recognition.modelKey && r.recognition.modelName == t.recognition.modelName
  {
    match k
    case Recognition => t.(recognition := t.recognition.(finished := 0, sessionId := session))
    case Training => t.(training := Entry(0, session, key, name))
  }

  /**
   * The sweep's close of an entry whose remote copy reports finished: the entry
   * becomes idle, and a training entry also forgets its model key and name.
   */
  function CloseEntry(t: Transmission, k: Kind): (r: Transmission)
    ensures Idle(r.Get(k))
    ensures k == Training ==> TrainingIdle(r.training)
    ensures k == Recognition ==>
              r.recognition.modelKey == t.recognition.modelKey && r.recognition.modelName == t.recognition.modelName
    ensures r.Get(Other(k)) == t.Get(Other(k))
  {
    match k
    case Recognition => t.(recognition := t.recognition.(finished := 1, sessionId := ""))
    case Training => t.(training := Entry(1, "", Some(""), Some("")))
  }

  /**
   * The dispatcher's clean-up after it adopted the remote ledger: an entry that
   * reports finished === 1 is cleared exactly as the sweep would close it; any other
   * ledger is kept as adopted.
   */
  function ClearIfFinished(t: Transmission, k: Kind): (r: Transmission)
    ensures t.Get(k).finished == 1 ==> r == CloseEntry(t, k)
    ensures t.Get(k).finished != 1 ==> r == t
  {
    if t.Get(k).finished != 1 then t
    else match k
      case Recognition => t.(recognition := t.recognition.(sessionId := ""))
      case Training => t.(training := t.training.(sessionId := "", modelKey := Some(""), modelName := Some("")))
  }

  /** The worker's flagging of the executed kind in its output copy (finished = 1). */
  function MarkFinished(t: Transmission, k: Kind): (r: Transmission)
    ensures r.Get(k).finished == 1
    ensures r.Get(k).sessionId == t.Get(k).sessionId
    ensures r.Get(k).modelKey == t.Get(k).modelKey && r.Get(k).modelName == t.Get(k).modelName
    ensures r.Get(Other(k)) == t.Get(Other(k))
  {
    t.Set(k, t.Get(k).(finished := 1))
  }

  /**
   * One job's life: marked in flight, flagged finished by the worker, then closed by
   * either the dispatcher or the sweep. Both paths end in the same ledger, and the
   * other kind's entry is what it was before the dispatch.
   */
  lemma Lifecycle(t: Transmission, k: Kind, session: string, key: Option<string>, name: Option<string>)
    ensures var flagged := MarkFinished(MarkInFlight(t, k, session, key, name), k);
            ClearIfFinished(flagged, k) == CloseEntry(flagged, k)
            && Idle(CloseEntry(flagged, k).Get(k))
            && CloseEntry(flagged, k).Get(Other(k)) == t.Get(Other(k))
  {
  }

  // ---------------------------------------------------------------------------
  // The model registry
  // ---------------------------------------------------------------------------

  /** Model key -> user-given name (the name may be a PHP null). */
  type Registry = map<string, Option<string>>

  /** PHP's coercion of an array key: a null key is the empty string. */
  function ArrayKey(k: Option<string>): (s: string)
    ensures k.Some? ==> s == k.value
    ensures k.None? ==> s == ""
  {
    k.GetOr("")
  }

  /** Add key -> name only when the key is not yet registered. */
  function RegisterIfAbsent(reg: Registry, key: string, name: Option<string>): (r: Registry)
    ensures r.Keys == reg.Keys + {key}
    ensures forall k :: k in reg ==> r[k] == reg[k]
    ensures key !in reg ==> r[key] == name
  {
    if key in reg then reg else reg[key := name]
  }

  /** The registry after a series of completed trainings is registered in order. */
  function RegisterAll(reg: Registry, done: seq<(string, Option<string>)>): Registry
    decreases |done|
  {
    if done == [] then reg
    else RegisterAll(RegisterIfAbsent(reg, done[0].0, done[0].1), done[1..])
  }

  function KeysOf(done: seq<(string, Option<string>)>): set<string>
  {
    set i | 0 <= i < |done| :: done[i].0
  }

  /** Registration is monotone: keys are only added, and no registered name ever changes. */
  lemma {:induction false} RegisterAllMonotone(reg: Registry, done: seq<(string, Option<string>)>)
    ensures RegisterAll(reg, done).Keys == reg.Keys + KeysOf(done)
    ensures forall k :: k in reg ==> RegisterAll(reg, done)[k] == reg[k]
    decreases |done|
  {
    if done != [] {
      var next := RegisterIfAbsent(reg, done[0].0, done[0].1);
      RegisterAllMonotone(next, done[1..]);
      assert KeysOf(done) == {done[0].0} + KeysOf(done[1..]) by {
        forall x | x in KeysOf(done) ensures x in {done[0].0} + KeysOf(done[1..]) {
          var i :| 0 <= i < |done| && done[i].0 == x;
          if i > 0 { assert done[1..][i - 1].0 == x; }
        }
        forall x | x in KeysOf(done[1..]) ensures x in KeysOf(done) {
          var i :| 0 <= i < |done[1..]| && done[1..][i].0 == x;
          assert done[i + 1].0 == x;
        }
      }
    }
  }

  /** The first registration of a key wins; later ones with the same key change nothing. */
  lemma {:induction false} RegisterAllFirstWins(reg: Registry, done: seq<(string, Option<string>)>, i: nat)
    requires i < |done|
    requires done[i].0 !in reg
    requires forall j :: 0 <= j < i ==> done[j].0 != done[i].0
    ensures done[i].0 in RegisterAll(reg, done) && RegisterAll(reg, done)[done[i].0] == done[i].1
    decreases i
  {
    var next := RegisterIfAbsent(reg, done[0].0, done[0].1);
    if i == 0 {
      RegisterAllMonotone(next, done[1..]);
    } else {
      assert done[1..][i - 1] == done[i];
      RegisterAllFirstWins(next, done[1..], i - 1);
    }
  }

  /** Observing the same completions again (a repeated sweep) leaves the registry as it is. */
  lemma {:induction false} RegisterAllIdempotent(reg: Registry, done: seq<(string, Option<string>)>)
    ensures RegisterAll(RegisterAll(reg, done), done) == RegisterAll(reg, done)
  {
    var once := RegisterAll(reg, done);
    RegisterAllMonotone(reg, done);
    RegisterAllAbsorbs(once, done);
  }

  /** Registering keys that are all present already changes nothing. */
  lemma {:induction false} RegisterAllAbsorbs(reg: Registry, done: seq<(string, Option<string>)>)
    requires KeysOf(done) <= reg.Keys
    ensures RegisterAll(reg, done) == reg
    decreases |done|
  {
    if done != [] {
      assert done[0].0 in KeysOf(done);
      assert KeysOf(done[1..]) <= KeysOf(done) by {
        forall x | x in KeysOf(done[1..]) ensures x in KeysOf(done) {
          var i :| 0 <= i < |done[1..]| && done[1..][i].0 == x;
          assert done[i + 1].0 == x;
        }
      }
      RegisterAllAbsorbs(reg, done[1..]);
    }
  }
}
