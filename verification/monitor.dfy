/** One run of the model monitor: fetch the catalog, read the known ids from the one
    scanned page, filter the new models, put them into the table, then send the email
    and answer. `Run` says what a run does; `ModelMonitor` does it step by step on the
    table and the effect log. */
module Monitor {
  import opened Wrappers
  import opened Text
  import opened Delta
  import opened Notification

  /** Why a run failed; the run rethrows it and gives no response. */
  datatype Failure =
    | CatalogFailed(message: string)
    | ScanFailed(message: string)
    | StoreWriteFailed
    | EmailFailed(message: string)

  /** Effects a run has on the outside world, in order. */
  datatype Effect = Put(item: ModelRecord) | SendEmail(email: Email)

  /** The JSON body of the response. */
  datatype ResponseBody =
    | Detected(message: string, newModels: seq<string>)
    | StatusEmailSent(message: string, totalModels: nat)
    | NothingNew(message: string)

  datatype Response = Response(statusCode: int, body: ResponseBody)

  /** What the collaborators answer during one run: the catalog call, the one page of the
      table scan (the ids on it), the ids whose put the store rejects, the email call, and
      the clock as the record stamp and as the email's date. */
  datatype World = World(
    catalog: Result<seq<ModelSummary>, string>,
    scanPage: Result<seq<string>, string>,
    rejectedPuts: set<string>,
    emailError: Option<string>,
    isoNow: string,
    localNow: string)

  /** What a run leaves behind: the table, the effects it had, and its answer. */
  datatype RunOutcome = RunOutcome(table: map<string, ModelRecord>, effects: seq<Effect>, result: Result<Response, Failure>)

  const StatusOk: int := 200
  const NoNewModelsStatusMessage: string := "No new models - status email sent (manual test)"
  const NoNewModelsMessage: string := "No new models"

  const DetectedPrefix: string := "Detected "
  const DetectedSuffix: string := " new model(s)"

  /** The response message of a run that found `count` new models: the count, in
      decimal, between the fixed prefix and suffix, reading back as `count`. */
  function DetectedMessage(count: nat): (message: string)
    ensures |DetectedPrefix| + |DetectedSuffix| < |message|
    ensures message[..|DetectedPrefix|] == DetectedPrefix
    ensures message[|message| - |DetectedSuffix|..] == DetectedSuffix
    ensures var digits := message[|DetectedPrefix|..|message| - |DetectedSuffix|];
      AllDigits(digits) && ParseNat(digits) == count
  {
    var digits := NatToString(count);
    var message := DetectedPrefix + digits + DetectedSuffix;
    assert message[|DetectedPrefix|..|message| - |DetectedSuffix|] == digits;
    ParseNatToString(count);
    message
  }

  /** The puts that take effect, one per accepted model, in list order. */
  function PutEffects(models: seq<ModelRecord>, rejected: set<string>): (puts: seq<Effect>)
    ensures forall e :: e in puts ==> e.Put? && e.item in models && e.item.modelId !in rejected
    ensures AllAccepted(models, rejected) ==> |puts| == |models|
  {
    if models == [] then []
    else
      var rest := PutEffects(models[1..], rejected);
      if models[0].modelId in rejected then rest else [Put(models[0])] + rest
  }

  /** Every accepted model has its put, and when the store accepts them all there is
      exactly one put per model, in the models' order. */
  lemma {:induction false} PutEffectsSpec(models: seq<ModelRecord>, rejected: set<string>)
    ensures forall m :: m in models && m.modelId !in rejected ==> Put(m) in PutEffects(models, rejected)
    ensures AllAccepted(models, rejected) ==>
              PutEffects(models, rejected) == seq(|models|, i requires 0 <= i < |models| => Put(models[i]))
  {
    if models != [] {
      PutEffectsSpec(models[1..], rejected);
      assert forall m :: m in models ==> m == models[0] || m in models[1..];
      assert AllAccepted(models, rejected) ==> AllAccepted(models[1..], rejected);
    }
  }

  /** Each model whose id the store accepts is put exactly as many times as it occurs
      among the models, and a model whose id it rejects is never put, whether the
      other puts succeed or not. */
  lemma {:induction false} PutEffectsCount(models: seq<ModelRecord>, rejected: set<string>)
    ensures forall m :: multiset(PutEffects(models, rejected))[Put(m)] ==
                          if m.modelId in rejected then 0 else multiset(models)[m]
  {
    if models != [] {
      PutEffectsCount(models[1..], rejected);
      assert models == [models[0]] + models[1..];
      var rest := PutEffects(models[1..], rejected);
      if models[0].modelId !in rejected {
        assert multiset(PutEffects(models, rejected)) == multiset([Put(models[0])]) + multiset(rest);
      }
    }
  }

  /** The emails among some effects. */
  function EmailsSent(effects: seq<Effect>): seq<Email>
  {
    if effects == [] then []
    else if effects[0].SendEmail? then [effects[0].email] + EmailsSent(effects[1..])
    else EmailsSent(effects[1..])
  }

  lemma {:induction false} EmailsSentAppend(a: seq<Effect>, b: seq<Effect>)
    ensures EmailsSent(a + b) == EmailsSent(a) + EmailsSent(b)
  {
    if a == [] {
      assert a + b == b;
    } else {
      assert (a + b)[0] == a[0];
      assert (a + b)[1..] == a[1..] + b;
      EmailsSentAppend(a[1..], b);
    }
  }

  lemma {:induction false} EmailsSentOfPuts(models: seq<ModelRecord>, rejected: set<string>)
    ensures EmailsSent(PutEffects(models, rejected)) == []
  {
    if models != [] {
      EmailsSentOfPuts(models[1..], rejected);
      if models[0].modelId !in rejected {
        var rest := PutEffects(models[1..], rejected);
        assert ([Put(models[0])] + rest)[1..] == rest;
      }
    }
  }

  /** The effects, table and answer of one run of the handler. */
  function Run(address: string, event: Event, world: World, table: map<string, ModelRecord>): (out: RunOutcome)
    ensures world.catalog.Failure? ==> out == RunOutcome(table, [], Failure(CatalogFailed(world.catalog.error)))
    ensures world.catalog.Success? && world.scanPage.Failure? ==>
              out == RunOutcome(table, [], Failure(ScanFailed(world.scanPage.error)))
    ensures out.result.Success? ==> out.result.value.statusCode == StatusOk
  {
    match world.catalog
    case Failure(e) => RunOutcome(table, [], Failure(CatalogFailed(e)))
    case Success(summaries) =>
      var current := Records(summaries, world.isoNow);
      match world.scanPage
      case Failure(e) => RunOutcome(table, [], Failure(ScanFailed(e)))
      case Success(page) =>
        var newModels := NewModels(current, KnownIds(page));
        if |newModels| > 0 then
          var saved := Upserts(table, newModels, world.rejectedPuts);
          var puts := PutEffects(newModels, world.rejectedPuts);
          if !AllAccepted(newModels, world.rejectedPuts) then
            RunOutcome(saved, puts, Failure(StoreWriteFailed))
          else if world.emailError.Some? then
            RunOutcome(saved, puts, Failure(EmailFailed(world.emailError.value)))
          else
            var email := NotificationEmail(address, newModels, false, world.localNow);
            RunOutcome(saved, puts + [SendEmail(email)],
                       Success(Response(StatusOk, Detected(DetectedMessage(|newModels|), Ids(newModels)))))
        else if IsManualTest(event) then
          if world.emailError.Some? then
            RunOutcome(table, [], Failure(EmailFailed(world.emailError.value)))
          else
            var email := NotificationEmail(address, [], true, world.localNow);
            RunOutcome(table, [SendEmail(email)],
                       Success(Response(StatusOk, StatusEmailSent(NoNewModelsStatusMessage, |current|))))
        else
          RunOutcome(table, [], Success(Response(StatusOk, NothingNew(NoNewModelsMessage))))
  }

  /** The new models of a run whose two fetches succeeded. */
  function NewModelsOf(world: World): seq<ModelRecord>
    requires world.catalog.Success? && world.scanPage.Success?
  {
    NewModels(Records(world.catalog.value, world.isoNow), KnownIds(world.scanPage.value))
  }

  /** New models found, whatever the trigger: each is put under its id and nothing else
      in the table changes; then exactly one email goes out, the new-models email, from
      and to the configured address; the answer is 200 with the new ids in order. */
  lemma RunWithNewModels(address: string, event: Event, world: World, table: map<string, ModelRecord>)
    requires world.catalog.Success? && world.scanPage.Success?
    requires NewModelsOf(world) != []
    requires AllAccepted(NewModelsOf(world), world.rejectedPuts) && world.emailError.None?
    ensures var out := Run(address, event, world, table);
      && out.table == Upserts(table, NewModelsOf(world), world.rejectedPuts)
      && (forall m :: m in NewModelsOf(world) ==> m.modelId in out.table && out.table[m.modelId].modelId == m.modelId)
      && (forall i :: 0 <= i < |NewModelsOf(world)| && LastWithId(NewModelsOf(world), i) ==>
            out.table[NewModelsOf(world)[i].modelId] == NewModelsOf(world)[i])
      && out.effects == PutEffects(NewModelsOf(world), world.rejectedPuts)
                        + [SendEmail(NotificationEmail(address, NewModelsOf(world), false, world.localNow))]
      && (forall k :: k in table && k !in AcceptedIds(NewModelsOf(world), world.rejectedPuts) ==> k in out.table && out.table[k] == table[k])
      && out.table.Keys == table.Keys + AcceptedIds(NewModelsOf(world), world.rejectedPuts)
      && |EmailsSent(out.effects)| == 1
      && EmailsSent(out.effects)[0].body.NewModelsBody?
      && EmailsSent(out.effects)[0].source == address && EmailsSent(out.effects)[0].toAddresses == [address]
      && SubjectCount(EmailsSent(out.effects)[0].subject) == Some(|NewModelsOf(world)|)
      && out.effects[|out.effects| - 1].SendEmail?
      && out.result == Success(Response(StatusOk, Detected(DetectedMessage(|NewModelsOf(world)|), Ids(NewModelsOf(world)))))
    ensures forall other: Event :: Run(address, other, world, table) == Run(address, event, world, table)
  {
    var nm := NewModelsOf(world);
    UpsertsSpec(table, nm, world.rejectedPuts);
    var puts := PutEffects(nm, world.rejectedPuts);
    var email := NotificationEmail(address, nm, false, world.localNow);
    EmailsSentAppend(puts, [SendEmail(email)]);
    EmailsSentOfPuts(nm, world.rejectedPuts);
  }

  /** A manual run that finds nothing new writes nothing and sends exactly the status
      check; its answer counts all current models. */
  lemma RunManualNothingNew(address: string, event: Event, world: World, table: map<string, ModelRecord>)
    requires world.catalog.Success? && world.scanPage.Success?
    requires NewModelsOf(world) == [] && IsManualTest(event) && world.emailError.None?
    ensures var out := Run(address, event, world, table);
      && out.table == table
      && |out.effects| == 1 && out.effects[0].SendEmail?
      && out.effects[0].email.body.StatusCheckBody?
      && out.effects[0].email.subject == StatusSubject
      && out.result == Success(Response(StatusOk, StatusEmailSent(NoNewModelsStatusMessage, |world.catalog.value|)))
  {
  }

  /** A scheduled run that finds nothing new writes nothing, sends nothing, and says so. */
  lemma RunScheduledNothingNew(address: string, event: Event, world: World, table: map<string, ModelRecord>)
    requires world.catalog.Success? && world.scanPage.Success?
    requires NewModelsOf(world) == [] && !IsManualTest(event)
    ensures var out := Run(address, event, world, table);
      && out.table == table
      && out.effects == []
      && out.result == Success(Response(StatusOk, NothingNew(NoNewModelsMessage)))
  {
  }

  /** A run fails exactly when a fetch fails, a put is rejected, or the email it tries to
      send fails. A failed run sends no email; the table writes happen before the email,
      so a rejected put means no email; a failed fetch touches nothing. */
  lemma RunFailures(address: string, event: Event, world: World, table: map<string, ModelRecord>)
    ensures var out := Run(address, event, world, table);
      && (out.result.Failure? <==>
            || world.catalog.Failure?
            || world.scanPage.Failure?
            || (NewModelsOf(world) != [] && !AllAccepted(NewModelsOf(world), world.rejectedPuts))
            || ((NewModelsOf(world) != [] || IsManualTest(event)) && world.emailError.Some?))
      && (out.result.Failure? ==> EmailsSent(out.effects) == [])
      && (world.catalog.Failure? || world.scanPage.Failure? ==> out.table == table && out.effects == [])
  {
    var out := Run(address, event, world, table);
    if world.catalog.Success? && world.scanPage.Success? && NewModelsOf(world) != [] {
      EmailsSentOfPuts(NewModelsOf(world), world.rejectedPuts);
    }
  }

  /** Nothing known is written again: every put of a run is of a model whose id is not on
      the scanned page. */
  lemma RunPutsOnlyNew(address: string, event: Event, world: World, table: map<string, ModelRecord>)
    requires world.catalog.Success? && world.scanPage.Success?
    ensures forall e :: e in Run(address, event, world, table).effects && e.Put? ==>
              e.item in NewModelsOf(world) && e.item.modelId !in world.scanPage.value
  {
  }

  /** The table a run leaves: the new models upserted when both fetches succeed and
      there are new models (whatever the later steps do), the old table otherwise. */
  lemma RunTable(address: string, event: Event, world: World, table: map<string, ModelRecord>)
    ensures Run(address, event, world, table).table ==
              if world.catalog.Success? && world.scanPage.Success? && NewModelsOf(world) != []
              then Upserts(table, NewModelsOf(world), world.rejectedPuts)
              else table
  {
  }

  /** Upserting keeps the store's invariant through a whole run. */
  lemma RunKeyed(address: string, event: Event, world: World, table: map<string, ModelRecord>)
    requires Keyed(table)
    ensures Keyed(Run(address, event, world, table).table)
  {
    RunTable(address, event, world, table);
    if world.catalog.Success? && world.scanPage.Success? && NewModelsOf(world) != [] {
      UpsertsKeyed(table, NewModelsOf(world), world.rejectedPuts);
    }
  }

  /** After a run whose puts all succeed, every current model's id is in the table,
      provided the ids on the scanned page were in the table. The email need not succeed. */
  lemma RunCoversCatalog(address: string, event: Event, world: World, table: map<string, ModelRecord>)
    requires world.catalog.Success? && world.scanPage.Success?
    requires forall id :: id in world.scanPage.value ==> id in table
    requires AllAccepted(NewModelsOf(world), world.rejectedPuts)
    ensures forall s :: s in world.catalog.value ==> s.modelId in Run(address, event, world, table).table
  {
    var current := Records(world.catalog.value, world.isoNow);
    var nm := NewModelsOf(world);
    UpsertsSpec(table, nm, world.rejectedPuts);
    RunTable(address, event, world, table);
    forall s | s in world.catalog.value
      ensures s.modelId in Run(address, event, world, table).table
    {
      var i :| 0 <= i < |world.catalog.value| && world.catalog.value[i] == s;
      assert current[i].modelId == s.modelId;
      if s.modelId !in world.scanPage.value {
        assert current[i] in nm;
      }
    }
  }

  /** A run that finds nothing new leaves the table as it was and sends at most the
      status check. */
  lemma RunNothingNew(address: string, event: Event, world: World, table: map<string, ModelRecord>)
    requires world.catalog.Success? && world.scanPage.Success? && NewModelsOf(world) == []
    ensures Run(address, event, world, table).table == table
    ensures forall e :: e in Run(address, event, world, table).effects ==> e.SendEmail? && e.email.body.StatusCheckBody?
  {
  }

  /** Idempotence: after a run whose puts all succeed, a second run against the same
      catalog, whose one scanned page lists every id of the table the first run left,
      finds no new models: it leaves the table as it was and sends no new-models email. */
  lemma RunIdempotent(address: string, event: Event, first: World, second: World, table: map<string, ModelRecord>)
    requires first.catalog.Success? && first.scanPage.Success?
    requires forall id :: id in first.scanPage.value ==> id in table
    requires AllAccepted(NewModelsOf(first), first.rejectedPuts)
    requires second.catalog == first.catalog && second.scanPage.Success?
    requires forall id :: id in Upserts(table, NewModelsOf(first), first.rejectedPuts) ==> id in second.scanPage.value
    ensures NewModelsOf(second) == []
    ensures var saved := Run(address, event, first, table).table;
      && saved == Upserts(table, NewModelsOf(first), first.rejectedPuts)
      && Run(address, event, second, saved).table == saved
      && (forall e :: e in Run(address, event, second, saved).effects ==> e.SendEmail? && e.email.body.StatusCheckBody?)
  {
    RunCoversCatalog(address, event, first, table);
    RunTable(address, event, first, table);
    var saved := Run(address, event, first, table).table;
    assert forall s :: s in second.catalog.value ==> s.modelId in KnownIds(second.scanPage.value);
    NothingNewWhenKnown(second.catalog.value, second.isoNow, KnownIds(second.scanPage.value));
    RunNothingNew(address, event, second, saved);
  }

  /** A catalog whose ids are all known yields no new models. */
  lemma NothingNewWhenKnown(summaries: seq<ModelSummary>, stamp: string, known: set<string>)
    requires forall s :: s in summaries ==> s.modelId in known
    ensures NewModels(Records(summaries, stamp), known) == []
  {
    var current := Records(summaries, stamp);
    forall m | m in current
      ensures m.modelId in known
    {
      var i :| 0 <= i < |current| && current[i] == m;
      assert summaries[i] in summaries;
    }
  }

  /** The monitor: the durable table and the log of effects of its runs. */
  class ModelMonitor {
    /** The configured sender and sole recipient of the emails. */
    const emailAddress: string
    var table: map<string, ModelRecord>
    var effects: seq<Effect>

    ghost predicate Valid()
      reads this
    {
      Keyed(table)
    }

    constructor (emailAddress: string, table: map<string, ModelRecord>)
      requires Keyed(table)
      ensures Valid()
      ensures this.emailAddress == emailAddress && this.table == table && effects == []
    {
      this.emailAddress := emailAddress;
      this.table := table;
      this.effects := [];
    }

    /** Puts every model into the table, keyed by its id; those the store rejects leave
        the table as it was. Reports whether every put was accepted. */
    method SaveNewModels(models: seq<ModelRecord>, rejected: set<string>) returns (ok: bool)
      requires Valid()
      modifies this
      ensures Valid()
      ensures table == Upserts(old(table), models, rejected)
      ensures effects == old(effects) + PutEffects(models, rejected)
      ensures ok <==> AllAccepted(models, rejected)
    {
      ok := true;
      var i := 0;
      while i < |models|
        invariant 0 <= i <= |models|
        invariant Valid()
        invariant Upserts(table, models[i..], rejected) == Upserts(old(table), models, rejected)
        invariant effects + PutEffects(models[i..], rejected) == old(effects) + PutEffects(models, rejected)
        invariant ok <==> forall j :: 0 <= j < i ==> models[j].modelId !in rejected
      {
        var m := models[i];
        var rest := models[i + 1..];
        assert models[i..][0] == m && models[i..][1..] == rest;
        assert PutEffects(models[i..], rejected) ==
               (if m.modelId in rejected then [] else [Put(m)]) + PutEffects(rest, rejected);
        if m.modelId in rejected {
          assert Upserts(table, models[i..], rejected) == Upserts(table, rest, rejected);
          ok := false;
        } else {
          assert Upserts(table, models[i..], rejected) == Upserts(table[m.modelId := m], rest, rejected);
          assert effects + ([Put(m)] + PutEffects(rest, rejected)) == (effects + [Put(m)]) + PutEffects(rest, rejected);
          table := table[m.modelId := m];
          effects := effects + [Put(m)];
        }
        i := i + 1;
      }
    }

    /** Composes the status check or the new-models email and sends it; a failed send
        leaves no effect and is returned. */
    method SendEmailNotification(newModels: seq<ModelRecord>, isStatusCheck: bool, now: string, emailError: Option<string>)
      returns (error: Option<string>)
      requires Valid()
      modifies this
      ensures Valid()
      ensures table == old(table) && error == emailError
      ensures effects == old(effects) + (if emailError.None? then [SendEmail(NotificationEmail(emailAddress, newModels, isStatusCheck, now))] else [])
    {
      var email := NotificationEmail(emailAddress, newModels, isStatusCheck, now);
      error := emailError;
      if error.None? {
        effects := effects + [SendEmail(email)];
      }
    }

    /** One invocation of the handler. */
    method Handler(event: Event, world: World) returns (result: Result<Response, Failure>)
      requires Valid()
      modifies this
      ensures Valid()
      ensures table == Run(emailAddress, event, world, old(table)).table
      ensures effects == old(effects) + Run(emailAddress, event, world, old(table)).effects
      ensures result == Run(emailAddress, event, world, old(table)).result
    {
      var isManualTest := IsManualTest(event);
      if world.catalog.Failure? {
        return Failure(CatalogFailed(world.catalog.error));
      }
      var currentModels := Records(world.catalog.value, world.isoNow);
      if world.scanPage.Failure? {
        return Failure(ScanFailed(world.scanPage.error));
      }
      var knownModels := KnownIds(world.scanPage.value);
      var newModels := NewModels(currentModels, knownModels);
      if |newModels| > 0 {
        var saved := SaveNewModels(newModels, world.rejectedPuts);
        if !saved {
          return Failure(StoreWriteFailed);
        }
        var error := SendEmailNotification(newModels, false, world.localNow, world.emailError);
        if error.Some? {
          return Failure(EmailFailed(error.value));
        }
        return Success(Response(StatusOk, Detected(DetectedMessage(|newModels|), Ids(newModels))));
      } else {
        if isManualTest {
          var error := SendEmailNotification([], true, world.localNow, world.emailError);
          if error.Some? {
            return Failure(EmailFailed(error.value));
          }
          return Success(Response(StatusOk, StatusEmailSent(NoNewModelsStatusMessage, |currentModels|)));
        }
        return Success(Response(StatusOk, NothingNew(NoNewModelsMessage)));
      }
    }
  }
}
