/** How observations come to be recorded, kept and lost, by processes that share
    one store, and what that makes of a resolved finding: what is stored of an
    observation that may prove absence is small enough to be derived whole. */
module Recording {
  import opened Common
  import opened Json
  import opened Delta
  import opened Obligation
  import Findings
  import Absence

  // ----- the guard at recording time -----

  const PAYLOAD: string := "payload"

  /** The draft as it may be recorded, given what the store holds right now. */
  function Guarded(payloads: map<string, Json>, draft: Observation): Observation
  {
    if draft.availability.MetadataOnly? then draft
    else if draft.payloadHash !in payloads then
      draft.(availability := Unavailable,
             capture := Capture(false, UnavailableStop,
                                draft.capture.affected + [AffectedScope(PAYLOAD, UnavailableStop)]))
    else if Findings.Complete(payloads[draft.payloadHash]) then draft
    else draft.(capture := Windowed(draft.capture))
  }

  function Windowed(c: Capture): Capture
  {
    var mark := AffectedScope(PAYLOAD, DerivationWindowed);
    Capture(false, if c.stop.Completed? then DerivationWindowed else c.stop,
            if mark in c.affected then c.affected else c.affected + [mark])
  }

  method RecordCapture(payloads: map<string, Json>, draft: Observation) returns (o: Observation)
    ensures o == Guarded(payloads, draft)
  {
    hide Findings.Complete;
    var availability, capture := draft.availability, draft.capture;
    if availability != MetadataOnly {
      if draft.payloadHash in payloads {
        var complete := Findings.FindingDerivationIsComplete(payloads[draft.payloadHash]);
        if !complete {
          capture := capture.(canProveAbsence := false);
          if capture.stop == Completed { capture := capture.(stop := DerivationWindowed); }
          var marked := false;
          for i := 0 to |capture.affected|
            invariant marked <==> AffectedScope(PAYLOAD, DerivationWindowed) in capture.affected[..i]
          {
            assert capture.affected[..i + 1] == capture.affected[..i] + [capture.affected[i]];
            if capture.affected[i].scope == PAYLOAD && capture.affected[i].stop == DerivationWindowed { marked := true; }
          }
          assert capture.affected[..|capture.affected|] == capture.affected;
          if !marked {
            capture := capture.(affected := capture.affected + [AffectedScope(PAYLOAD, DerivationWindowed)]);
          }
        }
      } else {
        availability := Unavailable;
        capture := Capture(false, UnavailableStop, capture.affected + [AffectedScope(PAYLOAD, UnavailableStop)]);
      }
    }
    o := draft.(availability := availability, capture := capture);
  }

  /** A capture keeps its power to prove absence exactly when its payload is
      stored and derives whole; a capture that loses it says where it stopped. */
  lemma GuardExact(payloads: map<string, Json>, draft: Observation)
    ensures WholeEvidence(Guarded(payloads, draft)) <==>
            WholeEvidence(draft) && draft.payloadHash in payloads && Findings.Complete(payloads[draft.payloadHash])
    ensures WholeEvidence(draft) && !WholeEvidence(Guarded(payloads, draft)) ==>
              var c := Guarded(payloads, draft).capture;
              !c.canProveAbsence && !c.stop.Completed? && exists a <- c.affected :: a.scope == PAYLOAD && !a.stop.Completed?
    ensures draft.capture.affected <= Guarded(payloads, draft).capture.affected
  {
    hide Findings.Complete;
    if WholeEvidence(draft) && !WholeEvidence(Guarded(payloads, draft)) {
      var reason := if draft.payloadHash in payloads then DerivationWindowed else UnavailableStop;
      assert AffectedScope(PAYLOAD, reason) in Guarded(payloads, draft).capture.affected;
    }
  }

  // ----- one store and the processes that use it -----

  /** The mutable cache entry of a key. */
  datatype Entry = Entry(payloadHash: string, observationId: string)

  /** What a process holds between two transactions. */
  datatype Work =
    | Looked(entry: Entry)
    | Recalled(entry: Entry, prior: Observation)
    | Ready(draft: Observation, retained: bool)
    | Written(entry: Entry)

  /** `holder` is the one process that has the store open. `stored` remembers
      what was ever put under a hash, `issued` every observation id: both
      outlive what the store holds now. */
  datatype System = System(
    store: Store,
    holder: Option<nat>,
    entries: map<string, Entry>,
    work: map<nat, Work>,
    stored: map<string, Json>,
    issued: set<string>)

  /** What a process does: open or close the store, or one transaction. */
  datatype Action =
    | Acquire
    | Release
    | Crash
    | Put(hash: string, payload: Json)
    | Begin(draft: Observation)
    | BeginTask(hash: string, payload: Json, draft: Observation)
    | LookUp(key: string)
    | Recall
    | Confirm(draft: Observation, redactedPaths: nat)
    | Record(id: string)
    | Retain(key: string)
    | Abandon
    | Expire(ids: set<string>)
    | Remove(hashes: set<string>, keys: set<string>)
    | PurgeAll
    | Annotate(receipts: map<string, Receipt>, intents: map<string, Intent>)

  datatype Event = Event(process: nat, action: Action)

  function Empty(): System
  {
    System(Store(map[], map[], map[], map[]), None, map[], map[], map[], {})
  }

  /** The process has checked a capture and not yet recorded it. */
  predicate Busy(s: System, process: nat)
  {
    process in s.work && s.work[process].Ready?
  }

  /** The database file admits one open handle, and opening it again waits. A
      process closes its handle only before it waits on a source, and does
      nothing else between checking a capture and recording it. */
  predicate Possible(s: System, e: Event)
  {
    match e.action
    case Acquire => s.holder.None?
    case Release => s.holder == Some(e.process) && !Busy(s, e.process)
    case Crash => true
    case Record(id) => s.holder == Some(e.process) && id !in s.issued
    case Abandon => s.holder == Some(e.process)
    case _ => s.holder == Some(e.process) && !Busy(s, e.process) && Storable(s, e.action)
  }

  /** A SHA-256 names one payload; a UUID, in `Possible`, one record. */
  predicate Storable(s: System, a: Action)
  {
    match a
    case Put(hash, payload) => Nameable(s, hash, payload)
    case BeginTask(hash, payload, _) => Nameable(s, hash, payload)
    case _ => true
  }

  predicate Nameable(s: System, hash: string, payload: Json)
  {
    WellFormed(payload) && (hash in s.stored ==> s.stored[hash] == payload)
  }

  function WithObservations(s: System, observations: map<string, Observation>): System
  {
    s.(store := s.store.(observations := observations))
  }

  function AfterPut(s: System, hash: string, payload: Json): System
  {
    s.(store := s.store.(payloads := s.store.payloads[hash := payload]), stored := s.stored[hash := payload])
  }

  /** The unguarded writer records no selection. */
  function TaskDraft(hash: string, draft: Observation): Observation
  {
    draft.(payloadHash := hash, selection := Selection([], false, false))
  }

  function AfterRecall(s: System, process: nat): System
  {
    if process in s.work && s.work[process].Looked? then
      var entry := s.work[process].entry;
      if entry.observationId in s.store.observations
      then s.(work := s.work[process := Recalled(entry, s.store.observations[entry.observationId])])
      else s.(work := s.work - {process})
    else s
  }

  /** A confirmed-unchanged source: the prior capture under a new question, no
      longer a proof when the new provenance had to be redacted. */
  function Revalidated(entry: Entry, prior: Observation, draft: Observation, redactedPaths: nat): Observation
  {
    draft.(payloadHash := entry.payloadHash,
           availability := if redactedPaths > 0 && prior.availability.Recoverable? then RedactedPayload
                           else prior.availability,
           capture := if redactedPaths == 0 then prior.capture
                      else Capture(false, if prior.capture.canProveAbsence then RedactedStop else prior.capture.stop,
                                   prior.capture.affected),
           provider := None, parser := None, lens := None,
           sourceState := prior.sourceState, sourceValidity := ConfirmedUnchanged)
  }

  function AfterConfirm(s: System, process: nat, draft: Observation, redactedPaths: nat): System
  {
    if process in s.work && s.work[process].Recalled? then
      var w := s.work[process];
      if w.entry.payloadHash in s.store.payloads
      then s.(work := s.work[process := Ready(Revalidated(w.entry, w.prior, draft, redactedPaths), true)])
      else s.(work := s.work - {process})
    else s
  }

  predicate Identified(o: Observation)
  {
    Trim(o.payloadHash) != [] && Trim(o.invocation) != [] && Trim(o.sourceId) != [] && Trim(o.operation) != []
  }

  function AfterRecord(s: System, process: nat, id: string): System
  {
    if process in s.work && s.work[process].Ready? then
      var o := s.work[process].draft.(id := id);
      if Identified(o) then
        WithObservations(s, s.store.observations[id := o])
          .(issued := s.issued + {id},
            work := if s.work[process].retained then s.work[process := Written(Entry(o.payloadHash, id))]
                    else s.work - {process})
      else s.(work := s.work - {process})
    else s
  }

  function AfterRetain(s: System, process: nat, key: string): System
  {
    if process in s.work && (s.work[process].Looked? || s.work[process].Written?)
    then s.(entries := s.entries[key := s.work[process].entry], work := s.work - {process})
    else s
  }

  /** The availabilities a loss of evidence still lowers. */
  predicate StillHeld(a: Availability)
  {
    a.Recoverable? || a.CaptureTruncated? || a.RedactedPayload?
  }

  function AfterExpire(s: System, ids: set<string>): System
  {
    WithObservations(s, map id | id in s.store.observations :: OutOfDate(s, id, ids))
  }

  function OutOfDate(s: System, id: string, ids: set<string>): Observation
    requires id in s.store.observations
  {
    var o := s.store.observations[id];
    if id in ids && o.payloadHash in s.store.payloads && StillHeld(o.availability) then o.(availability := Expired) else o
  }

  /** Eviction and purging: payloads go together with the claim that they can
      be read. */
  function AfterRemove(s: System, hashes: set<string>, keys: set<string>): System
  {
    var lowered := map id | id in s.store.observations :: WithoutPayload(s.store.observations[id], hashes);
    s.(store := s.store.(payloads := s.store.payloads - hashes, observations := lowered), entries := s.entries - keys)
  }

  function WithoutPayload(o: Observation, hashes: set<string>): Observation
  {
    if o.payloadHash in hashes && StillHeld(o.availability) then o.(availability := MetadataOnly) else o
  }

  /** A process that dies loses its work and, if it has one, its handle. */
  function AfterCrash(s: System, process: nat): System
  {
    s.(work := s.work - {process}, holder := if s.holder == Some(process) then None else s.holder)
  }

  function Apply(s: System, e: Event): System
  {
    var process := e.process;
    match e.action
    case Acquire => s.(holder := Some(process))
    case Release => s.(holder := None)
    case Crash => AfterCrash(s, process)
    case Put(hash, payload) => AfterPut(s, hash, payload)
    case Begin(draft) => s.(work := s.work[process := Ready(Guarded(s.store.payloads, draft), true)])
    case BeginTask(hash, payload, draft) =>
      AfterPut(s, hash, payload).(work := s.work[process := Ready(TaskDraft(hash, draft), false)])
    case LookUp(key) =>
      if key in s.entries then s.(work := s.work[process := Looked(s.entries[key])]) else s
    case Recall => AfterRecall(s, process)
    case Confirm(draft, redactedPaths) => AfterConfirm(s, process, draft, redactedPaths)
    case Record(id) => AfterRecord(s, process, id)
    case Retain(key) => AfterRetain(s, process, key)
    case Abandon => s.(work := s.work - {process})
    case Expire(ids) => AfterExpire(s, ids)
    case Remove(hashes, keys) => AfterRemove(s, hashes, keys)
    case PurgeAll => s.(store := Store(map[], map[], map[], map[]), entries := map[])
    case Annotate(receipts, intents) => s.(store := s.store.(receipts := receipts, intents := intents))
  }

  function Run(s: System, es: seq<Event>): System
    decreases |es|
  {
    if es == [] then s else Run(Apply(s, es[0]), es[1..])
  }

  predicate PossibleRun(s: System, es: seq<Event>)
    decreases |es|
  {
    es == [] || (Possible(s, es[0]) && PossibleRun(Apply(s, es[0]), es[1..]))
  }

  // ----- what every run keeps -----

  /** The payload of this hash derives whole. */
  predicate Seals(stored: map<string, Json>, hash: string)
  {
    hash in stored && Findings.Complete(stored[hash])
  }

  predicate Vouched(stored: map<string, Json>, o: Observation)
  {
    WholeEvidence(o) ==> Seals(stored, o.payloadHash)
  }

  predicate Trusted(stored: map<string, Json>, o: Observation)
  {
    o.selection.scopes != [] ==> Vouched(stored, o)
  }

  predicate SafeEntry(s: System, en: Entry)
  {
    en.observationId in s.issued &&
    (en.observationId in s.store.observations ==>
       var o := s.store.observations[en.observationId];
       o.payloadHash == en.payloadHash && Vouched(s.stored, o))
  }

  predicate SafeWork(s: System, w: Work)
  {
    match w
    case Looked(en) => SafeEntry(s, en)
    case Recalled(en, prior) => prior.payloadHash == en.payloadHash && Vouched(s.stored, prior)
    case Ready(draft, retained) => if retained then Vouched(s.stored, draft) else Trusted(s.stored, draft)
    case Written(en) => SafeEntry(s, en)
  }

  ghost predicate NamedPayloads(s: System)
  {
    && (forall h <- s.store.payloads :: h in s.stored && s.stored[h] == s.store.payloads[h])
    && (forall h <- s.stored :: WellFormed(s.stored[h]))
  }

  ghost predicate TrustedRecords(s: System)
  {
    forall id <- s.store.observations :: id in s.issued && Trusted(s.stored, s.store.observations[id])
  }

  ghost predicate SafeEntries(s: System)
  {
    forall k <- s.entries :: SafeEntry(s, s.entries[k])
  }

  ghost predicate SafeProcesses(s: System)
  {
    forall p <- s.work :: SafeWork(s, s.work[p])
  }

  ghost predicate Sound(s: System)
  {
    NamedPayloads(s) && TrustedRecords(s) && SafeEntries(s) && SafeProcesses(s)
  }

  /** A record changes only by losing availability. */
  predicate Lowered(before: Observation, after: Observation)
  {
    after == before.(availability := after.availability) && (after.availability.Recoverable? ==> before.availability.Recoverable?)
  }

  /** What any later state keeps of an earlier one. */
  ghost predicate Extends(s: System, t: System)
  {
    && (forall h <- s.stored :: h in t.stored && t.stored[h] == s.stored[h])
    && s.issued <= t.issued
    && (forall id <- t.store.observations | id in s.issued ::
          id in s.store.observations && Lowered(s.store.observations[id], t.store.observations[id]))
  }

  lemma EventExtends(s: System, e: Event)
    requires Sound(s) && Possible(s, e)
    ensures Extends(s, Apply(s, e))
  {
    hide SafeEntries, SafeProcesses, Trusted, Guarded, WellFormed, Revalidated, Identified, OutOfDate, WithoutPayload,
         Lowered;
    forall o: Observation ensures Lowered(o, o) { NothingLowered(o); }
    match e.action
    case Expire(ids) =>
      forall id | id in s.store.observations ensures Lowered(s.store.observations[id], OutOfDate(s, id, ids)) {
        OutOfDateIsLowered(s, id, ids);
      }
    case Remove(hashes, _) =>
      forall id | id in s.store.observations
        ensures Lowered(s.store.observations[id], WithoutPayload(s.store.observations[id], hashes))
      {
        WithoutPayloadIsLowered(s.store.observations[id], hashes);
      }
    case _ =>
  }

  lemma NothingLowered(o: Observation)
    ensures Lowered(o, o)
  {
  }

  lemma OutOfDateIsLowered(s: System, id: string, ids: set<string>)
    requires id in s.store.observations
    ensures Lowered(s.store.observations[id], OutOfDate(s, id, ids))
  {
  }

  lemma WithoutPayloadIsLowered(o: Observation, hashes: set<string>)
    ensures Lowered(o, WithoutPayload(o, hashes))
  {
  }

  lemma VouchedLater(s: System, t: System, before: Observation, after: Observation)
    requires Extends(s, t) && Lowered(before, after)
    ensures Vouched(s.stored, before) ==> Vouched(t.stored, after)
    ensures Trusted(s.stored, before) ==> Trusted(t.stored, after)
  {
    hide Findings.Complete;
  }

  lemma SafeLater(s: System, t: System, w: Work)
    requires Extends(s, t) && SafeWork(s, w)
    ensures SafeWork(t, w)
  {
    hide Vouched, Trusted;
    match w
    case Looked(en) => EntryLater(s, t, en);
    case Written(en) => EntryLater(s, t, en);
    case Recalled(_, prior) => VouchedLater(s, t, prior, prior);
    case Ready(draft, _) => VouchedLater(s, t, draft, draft);
  }

  lemma EntryLater(s: System, t: System, en: Entry)
    requires Extends(s, t) && SafeEntry(s, en)
    ensures SafeEntry(t, en)
  {
    hide Vouched;
    if en.observationId in t.store.observations {
      VouchedLater(s, t, s.store.observations[en.observationId], t.store.observations[en.observationId]);
    }
  }

  lemma EventKeepsSound(s: System, e: Event)
    requires Sound(s) && Possible(s, e)
    ensures Sound(Apply(s, e))
  {
    hide Apply, Extends, Possible, NamedPayloads, TrustedRecords, SafeEntries, SafeProcesses;
    EventExtends(s, e);
    PayloadsKept(s, e);
    RecordsKept(s, e);
    EntriesKept(s, e);
    ProcessesKept(s, e);
  }

  lemma PayloadsKept(s: System, e: Event)
    requires NamedPayloads(s) && Possible(s, e)
    ensures NamedPayloads(Apply(s, e))
  {
    hide Apply, AfterPut;
    PayloadsFrame(s, e);
  }

  /** Payloads are added by two actions and removed by two. */
  lemma PayloadsFrame(s: System, e: Event)
    requires Possible(s, e)
    ensures var t := Apply(s, e);
            if e.action.Put? || e.action.BeginTask? then
              var hash, payload := e.action.hash, e.action.payload;
              Nameable(s, hash, payload) &&
              t.store.payloads == s.store.payloads[hash := payload] && t.stored == s.stored[hash := payload]
            else
              t.stored == s.stored &&
              t.store.payloads == (if e.action.Remove? then s.store.payloads - e.action.hashes
                                   else if e.action.PurgeAll? then map[] else s.store.payloads)
  {
    hide Guarded, Revalidated, Identified, OutOfDate, WithoutPayload, Nameable;
  }

  /** Only a recording adds an observation. */
  lemma RecordsFrame(s: System, e: Event)
    ensures e.action.Record? || Apply(s, e).store.observations.Keys <= s.store.observations.Keys
  {
    hide Apply;
    if e.action.Expire? {
      ExpireFrame(s, e);
    } else if e.action.Remove? || e.action.PurgeAll? {
      RemoveFrame(s, e);
    } else if !e.action.Record? {
      KeepsRecords(s, e);
    }
  }

  lemma ExpireFrame(s: System, e: Event)
    requires e.action.Expire?
    ensures Apply(s, e).store.observations.Keys == s.store.observations.Keys
  {
    hide OutOfDate;
  }

  lemma RemoveFrame(s: System, e: Event)
    requires e.action.Remove? || e.action.PurgeAll?
    ensures Apply(s, e).store.observations.Keys <= s.store.observations.Keys
  {
    hide WithoutPayload;
  }

  lemma RecordsKept(s: System, e: Event)
    requires Sound(s) && Extends(s, Apply(s, e))
    ensures TrustedRecords(Apply(s, e))
  {
    hide Guarded, WellFormed, Revalidated, Identified, Vouched, Trusted;
    var t := Apply(s, e);
    forall id | id in t.store.observations ensures id in t.issued && Trusted(t.stored, t.store.observations[id]) {
      if id in s.issued {
        VouchedLater(s, t, s.store.observations[id], t.store.observations[id]);
      } else {
        FreshRecord(s, e, id);
      }
    }
  }

  lemma FreshRecord(s: System, e: Event, id: string)
    requires Sound(s) && id in Apply(s, e).store.observations && id !in s.issued
    ensures id in Apply(s, e).issued && Trusted(Apply(s, e).stored, Apply(s, e).store.observations[id])
  {
    RecordsFrame(s, e);
    RecordedIsTrusted(s, e.process, id);
  }

  lemma RecordedIsTrusted(s: System, process: nat, id: string)
    requires SafeProcesses(s)
    ensures var t := AfterRecord(s, process, id);
            t.stored == s.stored && t.store.observations.Keys <= s.store.observations.Keys + {id} &&
            (t.store.observations == s.store.observations ||
             (id in t.issued && id in t.store.observations && Trusted(t.stored, t.store.observations[id])))
  {
    hide Identified, Findings.Complete;
  }

  lemma EntriesKept(s: System, e: Event)
    requires Sound(s) && Extends(s, Apply(s, e))
    ensures SafeEntries(Apply(s, e))
  {
    hide Guarded, WellFormed, Revalidated, Identified, SafeEntry, Extends;
    var t := Apply(s, e);
    forall k | k in t.entries ensures SafeEntry(t, t.entries[k]) {
      assert SafeEntry(s, t.entries[k]);
      EntryLater(s, t, t.entries[k]);
    }
  }

  lemma ProcessesKept(s: System, e: Event)
    requires Sound(s) && Extends(s, Apply(s, e))
    ensures SafeProcesses(Apply(s, e))
  {
    hide Guarded, WellFormed, Revalidated, Identified, SafeWork, Extends;
    var t := Apply(s, e);
    forall p | p in t.work ensures SafeWork(t, t.work[p]) {
      if p in s.work && s.work[p] == t.work[p] {
        SafeLater(s, t, t.work[p]);
      } else {
        NewWork(s, e, p);
      }
    }
  }

  /** What a process holds after its own transaction. */
  lemma NewWork(s: System, e: Event, p: nat)
    requires Sound(s) && Extends(s, Apply(s, e))
    requires p in Apply(s, e).work && !(p in s.work && s.work[p] == Apply(s, e).work[p])
    ensures SafeWork(Apply(s, e), Apply(s, e).work[p])
  {
    hide Guarded, WellFormed, Revalidated, Identified, Findings.Complete;
    match e.action
    case Begin(draft) => BegunIsVouched(s, draft);
    case Confirm(draft, redactedPaths) =>
      var w := s.work[p];
      RevalidatedIsVouched(s.stored, w.entry, w.prior, draft, redactedPaths);
    case _ =>
  }

  lemma BegunIsVouched(s: System, draft: Observation)
    requires NamedPayloads(s)
    ensures Vouched(s.stored, Guarded(s.store.payloads, draft))
  {
    hide WellFormed, Findings.Complete;
  }

  lemma RevalidatedIsVouched(
    stored: map<string, Json>, en: Entry, prior: Observation, draft: Observation, redactedPaths: nat)
    requires prior.payloadHash == en.payloadHash && Vouched(stored, prior)
    ensures Vouched(stored, Revalidated(en, prior, draft, redactedPaths))
  {
  }

  lemma EmptyIsSound()
    ensures Sound(Empty())
  {
  }

  /** Every reachable state is sound, and a record, once written, never changes
      but to lose availability. */
  lemma {:induction false} RunKeepsSound(s: System, es: seq<Event>)
    requires Sound(s) && PossibleRun(s, es)
    ensures Sound(Run(s, es)) && Extends(s, Run(s, es))
    decreases |es|
  {
    hide Sound, Apply, Possible, Extends;
    if es == [] {
      ExtendsItself(s);
    } else {
      var t := Apply(s, es[0]);
      EventExtends(s, es[0]);
      EventKeepsSound(s, es[0]);
      RunKeepsSound(t, es[1..]);
      ExtendsThrough(s, t, Run(t, es[1..]));
    }
  }

  lemma ExtendsItself(s: System)
    ensures Extends(s, s)
  {
  }

  lemma ExtendsThrough(s: System, t: System, u: System)
    requires Extends(s, t) && Extends(t, u)
    ensures Extends(s, u)
  {
  }

  // ----- what can be read -----

  /** Whatever a record or a finished draft claims to be held can be read. */
  ghost predicate Backed(s: System)
  {
    && (forall id <- s.store.observations :: ClaimHolds(s, s.store.observations[id]))
    && (forall p: nat | Busy(s, p) :: ClaimHolds(s, s.work[p].draft))
  }

  predicate ClaimHolds(s: System, o: Observation)
  {
    StillHeld(o.availability) ==> o.payloadHash in s.store.payloads
  }

  /** Only the holder of the store is between a check and a record. */
  ghost predicate OneRecorder(s: System)
  {
    forall p: nat | Busy(s, p) :: s.holder == Some(p)
  }

  lemma EventKeepsRecorder(s: System, e: Event)
    requires OneRecorder(s) && Possible(s, e)
    ensures OneRecorder(Apply(s, e))
  {
    hide Guarded, Revalidated, Identified, Nameable, OutOfDate, WithoutPayload;
  }

  /** Every claim of a held payload stays true: nothing can remove a payload
      between the check of a capture and its record, and whatever removes one
      later lowers the records that claim it. */
  lemma EventKeepsBacked(s: System, e: Event)
    requires OneRecorder(s) && Backed(s) && Possible(s, e)
    ensures Backed(Apply(s, e))
  {
    hide Apply, OneRecorder, Backed;
    match e.action
    case Expire(_) => ExpireKeepsBacked(s, e);
    case Remove(_, _) => RemoveKeepsBacked(s, e);
    case PurgeAll => RemoveKeepsBacked(s, e);
    case Record(_) => RecordKeepsBacked(s, e);
    case _ => WorkKeepsBacked(s, e);
  }

  lemma ExpireKeepsBacked(s: System, e: Event)
    requires Backed(s) && e.action.Expire?
    ensures Backed(Apply(s, e))
  {
  }

  lemma RemoveKeepsBacked(s: System, e: Event)
    requires OneRecorder(s) && Backed(s) && Possible(s, e) && (e.action.Remove? || e.action.PurgeAll?)
    ensures Backed(Apply(s, e))
  {
    var t := Apply(s, e);
    forall p: nat ensures !Busy(t, p) {
      assert !Busy(s, p);
    }
  }

  lemma RecordKeepsBacked(s: System, e: Event)
    requires Backed(s) && e.action.Record?
    ensures Backed(Apply(s, e))
  {
    hide Identified;
    var t := Apply(s, e);
    if Busy(s, e.process) { assert ClaimHolds(s, s.work[e.process].draft); }
    forall p: nat | Busy(t, p) ensures ClaimHolds(t, t.work[p].draft) {
      assert Busy(s, p);
    }
  }

  /** The other actions lose no payload and touch no record; what they make
      ready was checked against the store. */
  lemma WorkKeepsBacked(s: System, e: Event)
    requires Backed(s) && Possible(s, e)
    requires !e.action.Expire? && !e.action.Remove? && !e.action.PurgeAll? && !e.action.Record?
    ensures Backed(Apply(s, e))
  {
    hide ClaimHolds, Apply;
    PayloadsFrame(s, e);
    KeepsRecords(s, e);
    var t := Apply(s, e);
    forall o: Observation | ClaimHolds(s, o) ensures ClaimHolds(t, o) { ClaimLater(s, t, o); }
    forall p: nat | Busy(t, p) ensures ClaimHolds(t, t.work[p].draft) {
      if p in s.work && s.work[p] == t.work[p] {
        assert ClaimHolds(s, s.work[p].draft);
      } else {
        ReadyIsBacked(s, e, p);
      }
    }
  }

  lemma KeepsRecords(s: System, e: Event)
    requires !e.action.Expire? && !e.action.Remove? && !e.action.PurgeAll? && !e.action.Record?
    ensures Apply(s, e).store.observations == s.store.observations
  {
    hide Guarded, Revalidated, Nameable;
  }

  lemma ClaimLater(s: System, t: System, o: Observation)
    requires ClaimHolds(s, o) && s.store.payloads.Keys <= t.store.payloads.Keys
    ensures ClaimHolds(t, o)
  {
  }

  lemma ReadyIsBacked(s: System, e: Event, p: nat)
    requires p in Apply(s, e).work && Apply(s, e).work[p].Ready? && !(p in s.work && s.work[p] == Apply(s, e).work[p])
    ensures ClaimHolds(Apply(s, e), Apply(s, e).work[p].draft)
  {
    hide Apply;
    WhoMakesReady(s, e, p);
    match e.action
    case Begin(_) => ReadyByBegin(s, e);
    case BeginTask(_, _, _) => ReadyByTask(s, e);
    case _ => ReadyByConfirm(s, e);
  }

  lemma WhoMakesReady(s: System, e: Event, p: nat)
    requires p in Apply(s, e).work && Apply(s, e).work[p].Ready? && !(p in s.work && s.work[p] == Apply(s, e).work[p])
    ensures p == e.process && (e.action.Begin? || e.action.BeginTask? || e.action.Confirm?)
  {
    hide Guarded, Revalidated, Identified, OutOfDate, WithoutPayload;
  }

  lemma ReadyByBegin(s: System, e: Event)
    requires e.action.Begin?
    ensures ClaimHolds(Apply(s, e), Apply(s, e).work[e.process].draft)
  {
    hide Findings.Complete, Windowed;
  }

  lemma ReadyByTask(s: System, e: Event)
    requires e.action.BeginTask?
    ensures ClaimHolds(Apply(s, e), Apply(s, e).work[e.process].draft)
  {
  }

  lemma ReadyByConfirm(s: System, e: Event)
    requires e.action.Confirm? && e.process in Apply(s, e).work && Apply(s, e).work[e.process].Ready?
    requires !(e.process in s.work && s.work[e.process] == Apply(s, e).work[e.process])
    ensures ClaimHolds(Apply(s, e), Apply(s, e).work[e.process].draft)
  {
  }

  lemma {:induction false} RunKeepsBacked(s: System, es: seq<Event>)
    requires OneRecorder(s) && Backed(s) && PossibleRun(s, es)
    ensures OneRecorder(Run(s, es)) && Backed(Run(s, es))
    decreases |es|
  {
    hide OneRecorder, Backed, Apply, Possible;
    if es != [] {
      EventKeepsRecorder(s, es[0]);
      EventKeepsBacked(s, es[0]);
      RunKeepsBacked(Apply(s, es[0]), es[1..]);
    }
  }

  // ----- resolved findings -----

  /** How findings are derived from the payload of an observation, whose
      provider, parser and lens take part in the labels. */
  type Derivation = Observation -> Absence.Readings

  /** The findings of every payload are those of its capped derivation. */
  ghost predicate Derives(world: World, v: Derivation)
  {
    forall o: Observation, payload: Json | WellFormed(payload) :: IsDerived(v, o, payload, world.derive(o, payload))
  }

  ghost predicate IsDerived(v: Derivation, o: Observation, payload: Json, findings: seq<Finding>)
  {
    exists all :: Absence.DerivedFrom(v(o), payload, findings, all)
  }

  /** The payload holds the finding: the derivation without any cap finds it. */
  ghost predicate Holds(v: Derivation, o: Observation, payload: Json, fp: string)
  {
    exists x <- Absence.Everything(v(o), payload) :: v(o).labels.fingerprint(x) == Some(fp)
  }

  /** Evidence as of one moment and its payload as of a later one: what is
      provably absent from the findings is absent from the payload. */
  lemma ProvenAbsent(
    s: System, later: seq<Event>, world: World, v: Derivation, b: Observation, id: string, bt: Option<TestPopulation>,
    st: Option<TestPopulation>, fp: string)
    requires Sound(s) && PossibleRun(s, later) && Derives(world, v) && id in s.store.observations
    requires AbsenceProvable(b, s.store.observations[id], bt, st) && fp != []
    requires var o, payloads := s.store.observations[id], Run(s, later).store.payloads;
             o.payloadHash in payloads && fp !in ByFingerprint(world.derive(o, payloads[o.payloadHash]))
    ensures var o := s.store.observations[id];
            !Holds(v, o, Run(s, later).store.payloads[o.payloadHash], fp)
  {
    hide Run, WellFormed, Findings.Complete, Absence.Everything, Absence.DerivedFrom, ByFingerprint, SafeEntries,
         SafeProcesses, PossibleRun, SelectionsCover, SourceHeldStill, PopulationComparable, SameQuestion;
    RunKeepsSound(s, later);
    var o := s.store.observations[id];
    NamesItsScopes(b, o, bt, st);
    var payload := Run(s, later).store.payloads[o.payloadHash];
    assert Trusted(s.stored, o) && Seals(s.stored, o.payloadHash);
    assert WellFormed(payload) && Findings.Complete(payload);
    assert IsDerived(v, o, payload, world.derive(o, payload));
    var all :| Absence.DerivedFrom(v(o), payload, world.derive(o, payload), all);
    Absence.NotDerivedIsAbsent(v(o), payload, world.derive(o, payload), all, fp);
  }

  lemma NamesItsScopes(b: Observation, s: Observation, bt: Option<TestPopulation>, st: Option<TestPopulation>)
    requires AbsenceProvable(b, s, bt, st)
    ensures WholeEvidence(s) && s.selection.scopes != []
  {
    hide NormalizedScopes, SelectionsCover, SourceHeldStill, PopulationComparable, SameQuestion;
    ScopesNamed(s);
  }

  /** The state after a whole run of the shared store. */
  ghost predicate Reachable(s: System)
  {
    exists es :: PossibleRun(Empty(), es) && s == Run(Empty(), es)
  }

  /** In every reachable state, what may prove absence is derived whole and what
      claims to be held can be read. */
  lemma ReachableIsSound(s: System)
    requires Reachable(s)
    ensures Sound(s) && Backed(s)
  {
    hide Sound, Backed, OneRecorder, Run, PossibleRun;
    var es :| PossibleRun(Empty(), es) && s == Run(Empty(), es);
    EmptyIsSound();
    EmptyIsBacked();
    RunKeepsSound(Empty(), es);
    RunKeepsBacked(Empty(), es);
  }

  lemma EmptyIsBacked()
    ensures OneRecorder(Empty()) && Backed(Empty())
  {
  }

  /** The evidence shows what a resolved finding claims: the payload is there
      and does not hold it. */
  ghost predicate Shows(s: System, v: Derivation, o: Observation, fp: string)
  {
    o.payloadHash in s.store.payloads && !Holds(v, o, s.store.payloads[o.payloadHash], fp)
  }

  lemma ProvableIsShown(
    s: System, world: World, v: Derivation, b: Observation, id: string, bt: Option<TestPopulation>,
    st: Option<TestPopulation>, fp: string)
    requires Reachable(s) && Derives(world, v) && id in s.store.observations && fp != []
    requires var o := s.store.observations[id];
             AbsenceProvable(b, o, bt, st) && fp !in ByFingerprint(FindingsFor(s.store, world, o))
    ensures Shows(s, v, s.store.observations[id], fp)
  {
    hide Reachable, Sound, Derives, AbsenceProvable, Holds, ByFingerprint;
    var o := s.store.observations[id];
    ReachableIsSound(s);
    NamesItsScopes(b, o, bt, st);
    assert ClaimHolds(s, o);
    ProvenAbsent(s, [], world, v, b, id, bt, st, fp);
  }

  /** Over every run of every number of processes: a resolved finding is absent
      from the subject's payload, which is stored. */
  lemma ResolvedIsBacked(
    s: System, world: World, v: Derivation, baselineId: string, subjectId: string, d: ObservationDelta,
    full: seq<DeltaFinding>, f: DeltaFinding)
    requires Reachable(s) && Derives(world, v)
    requires baselineId in s.store.observations && subjectId in s.store.observations
    requires ComparesStored(s.store, world, s.store.observations[baselineId], s.store.observations[subjectId], d, full)
    requires f in full && f.status == Resolved && f.fingerprint != []
    ensures Shows(s, v, s.store.observations[subjectId], f.fingerprint)
  {
    hide Reachable, Derives, IsDelta, AbsenceProvable, Shows, PopulationOf, ByFingerprint;
    var b, o := s.store.observations[baselineId], s.store.observations[subjectId];
    ResolvedExactlyWhenProven(b, o, FindingsFor(s.store, world, b), FindingsFor(s.store, world, o), TestsFor(s.store, b),
                              TestsFor(s.store, o), d, full, f);
    ProvableIsShown(s, world, v, b, subjectId, TestsFor(s.store, b), TestsFor(s.store, o), f.fingerprint);
  }

  /** The gate: an obligation that asks for an absence and rests on no receipt
      passes only on evidence whose stored payload does not hold the finding. */
  lemma GatePassMeansAbsent(
    s: System, world: World, v: Derivation, ob: VerificationObligation, full: seq<DeltaFinding>, e: Evaluation)
    requires Reachable(s) && Derives(world, v)
    requires PassesExactly(s.store, world, ob, full, e) && e.status == Passed
    requires ob.receiptId.None? && ob.expectedAbsent.Some? && ob.expectedAbsent.value != []
    ensures ob.evidenceId.Some? && ob.evidenceId.value in s.store.observations &&
            Shows(s, v, s.store.observations[ob.evidenceId.value], ob.expectedAbsent.value)
  {
    hide Reachable, Derives, AbsenceProvable, Shows, PopulationOf, ByFingerprint, Usable, Current, FindingsFor;
    assert PassesByFinding(s.store, world, ob, full);
    var b, o := s.store.observations[ob.originId.value], s.store.observations[ob.evidenceId.value];
    ProvableIsShown(s, world, v, b, ob.evidenceId.value, TestsFor(s.store, b), TestsFor(s.store, o),
                    ob.expectedAbsent.value);
  }

  // ----- captures that do prove absence -----

  lemma RunStep(s: System, e: Event, es: seq<Event>)
    ensures Run(s, [e] + es) == Run(Apply(s, e), es)
    ensures PossibleRun(s, [e] + es) <==> Possible(s, e) && PossibleRun(Apply(s, e), es)
  {
    assert ([e] + es)[1..] == es;
  }

  lemma NoMoreSteps(s: System)
    ensures Run(s, []) == s && PossibleRun(s, [])
  {
  }

  lemma AnyId(o: Observation, id: string)
    ensures Identified(o.(id := id)) <==> Identified(o)
  {
    hide Trim;
  }

  /** Checking and recording a payload just stored, from any state in which the
      process is idle and the store is its own: possible, and what is recorded
      may prove absence exactly when the draft may and the payload derives
      whole. */
  lemma CaptureProves(s: System, process: nat, o: Observation, payload: Json, id: string)
    requires s.holder == Some(process) && !Busy(s, process)
    requires Nameable(s, o.payloadHash, payload) && Identified(o) && id !in s.issued
    ensures var es := [Event(process, Put(o.payloadHash, payload)), Event(process, Begin(o)), Event(process, Record(id))];
            var after := Run(s, es).store;
            && PossibleRun(s, es)
            && id in after.observations && after.observations == s.store.observations[id := after.observations[id]]
            && (WholeEvidence(after.observations[id]) <==> WholeEvidence(o) && Findings.Complete(payload))
  {
    hide Run, PossibleRun, Identified, Nameable, Findings.Complete, Guarded;
    var first, second, third := Event(process, Put(o.payloadHash, payload)), Event(process, Begin(o)), Event(process, Record(id));
    var put := AfterPut(s, o.payloadHash, payload);
    var begun := Apply(put, second);
    assert [first, second, third] == [first] + ([second] + ([third] + []));
    RunStep(s, first, [second] + ([third] + []));
    RunStep(put, second, [third] + []);
    RunStep(begun, third, []);
    NoMoreSteps(Apply(begun, third));
    var kept := Guarded(put.store.payloads, o);
    GuardExact(put.store.payloads, o);
    GuardKeepsIdentity(put.store.payloads, o);
    AnyId(kept, id);
  }

  lemma GuardKeepsIdentity(payloads: map<string, Json>, o: Observation)
    ensures Identified(Guarded(payloads, o)) <==> Identified(o)
  {
    hide Findings.Complete, Trim;
  }
}
