/** What the fact log stores and what a form shows of it, read off the log by position. */
module FormFields {
  import opened Entities
  import opened Keyed
  import opened GateAndForms

  // -------------------------------------------------------------------- the log

  /** Position of the latest fact on a key. */
  ghost predicate LatestAt(facts: seq<Fact>, key: string, at: nat) {
    at < |facts| && facts[at].key == key && forall j | at < j < |facts| :: facts[j].key != key
  }

  ghost predicate Unknown(facts: seq<Fact>, key: string) { forall f | f in facts :: f.key != key }

  lemma LatestExactly(facts: seq<Fact>, key: string) returns (at: nat)
    ensures LatestByKey(facts, key).Some? ==> LatestAt(facts, key, at) && facts[at] == LatestByKey(facts, key).value
    ensures LatestByKey(facts, key).None? <==> Unknown(facts, key)
  {
    at := LatestIs(facts, key);
    if LatestByKey(facts, key).Some? { assert facts[at] in facts; }
  }

  /**
   What an upsert leaves: the log as it was when the key's latest fact says the value
   already; else one fact more, a conflict naming that fact when it came from an asset.
   */
  ghost predicate Upserted(before: seq<Fact>, after: seq<Fact>, id: string, key: string, value: Value, source: SourceRef) {
    && (Unknown(before, key) ==> after == before + [Fact(id, key, Some(value), source, FactConfirmed, None)])
    && forall at: nat | LatestAt(before, key, at) ::
         after == if before[at].value == Some(value) then before
                  else if before[at].source.kind == FromAsset
                  then before + [Fact(id, key, Some(value), source, FactConflict, Some(before[at].factId))]
                  else before + [Fact(id, key, Some(value), source, FactConfirmed, None)]
  }

  lemma UpsertExactly(facts: seq<Fact>, id: string, key: string, value: Value, source: SourceRef)
    ensures Upserted(facts, UpsertFact(facts, id, key, value, source), id, key, value, source)
  {
    var at := LatestExactly(facts, key);
    forall n: nat | LatestAt(facts, key, n) ensures LatestByKey(facts, key) == Some(facts[n]) {
      assert facts[n] in facts;
      assert n == at;
    }
  }

  /** A gap may be declared on a key unless its latest fact is confirmed. */
  lemma DeferrableExactly(facts: seq<Fact>, key: string)
    ensures CanDefer(facts, key) <==> forall at: nat | LatestAt(facts, key, at) :: facts[at].status != FactConfirmed
  {
    var at := LatestExactly(facts, key);
    if n: nat :| LatestAt(facts, key, n) {
      assert facts[n] in facts;
      assert n == at;
    }
  }

  // ------------------------------------------------------------------- one field

  ghost predicate LastWith(facts: seq<Fact>, key: string, status: FactStatus, at: nat) {
    && at < |facts| && facts[at].key == key && facts[at].status == status
    && forall j | at < j < |facts| :: !(facts[j].key == key && facts[j].status == status)
  }

  ghost predicate Has(facts: seq<Fact>, key: string, status: FactStatus) {
    exists f :: f in facts && f.key == key && f.status == status
  }

  /** Any conflict hides the value; else the last confirmed fact is shown; else the last declared gap; else it is pending. */
  ghost predicate Shows(field: FormField, key: string, facts: seq<Fact>) {
    && (Has(facts, key, FactConflict) ==> field == FormField(None, None, Conflicting))
    && (!Has(facts, key, FactConflict) ==>
          && (forall at: nat | LastWith(facts, key, FactConfirmed, at) ::
                field == FormField(facts[at].value, Some(facts[at].source), Filled))
          && (!Has(facts, key, FactConfirmed) ==>
                && (forall at: nat | LastWith(facts, key, FactDeferred, at) ::
                      field == FormField(None, Some(facts[at].source), PendingInstitution))
                && (!Has(facts, key, FactDeferred) ==> field == FormField(None, None, Pending))))
  }

  lemma {:induction false} LastOfChosen(facts: seq<Fact>, key: string, status: FactStatus, at: nat)
    requires LastWith(facts, key, status, at)
    ensures var c := Chosen(facts, key, status); c != [] && c[|c| - 1] == facts[at]
  {
    if at < |facts| - 1 { LastOfChosen(facts[..|facts| - 1], key, status, at); }
  }

  lemma HasExactly(facts: seq<Fact>, key: string, status: FactStatus)
    ensures Chosen(facts, key, status) != [] <==> Has(facts, key, status)
  {
    ChosenExists(facts, key, status);
  }

  lemma LastChosenAt(facts: seq<Fact>, key: string, status: FactStatus)
    ensures forall at: nat | LastWith(facts, key, status, at) ::
              Has(facts, key, status) && Chosen(facts, key, status)[|Chosen(facts, key, status)| - 1] == facts[at]
  {
    HasExactly(facts, key, status);
    forall at: nat | LastWith(facts, key, status, at)
      ensures Has(facts, key, status) && Chosen(facts, key, status)[|Chosen(facts, key, status)| - 1] == facts[at]
    {
      assert facts[at] in facts;
      LastOfChosen(facts, key, status, at);
    }
  }

  lemma FieldExactly(key: string, facts: seq<Fact>)
    ensures Shows(FieldFor(key, facts), key, facts)
  {
    HasExactly(facts, key, FactConflict);
    HasExactly(facts, key, FactConfirmed);
    HasExactly(facts, key, FactDeferred);
    LastChosenAt(facts, key, FactConfirmed);
    LastChosenAt(facts, key, FactDeferred);
  }

  /** A form shows every required key and no other, and lists its conflicting keys in form order. */
  lemma FormExactly(keys: seq<string>, facts: seq<Fact>)
    ensures forall k :: k in Fields(keys, facts) <==> k in keys
    ensures forall k | k in keys :: Shows(Fields(keys, facts)[k], k, facts)
    ensures ConflictKeys(keys, facts) == Filter(keys, k => Has(facts, k, FactConflict))
  {
    forall k | k in keys ensures Shows(Fields(keys, facts)[k], k, facts) { FieldExactly(k, facts); }
    ConflictsInOrder(keys, facts);
  }

  lemma {:induction false} ConflictsInOrder(keys: seq<string>, facts: seq<Fact>)
    ensures ConflictKeys(keys, facts) == Filter(keys, k => Has(facts, k, FactConflict))
  {
    if keys != [] {
      var n := |keys| - 1;
      ConflictsInOrder(keys[..n], facts);
      ChosenExists(facts, keys[n], FactConflict);
    }
  }

  /** Nothing is outstanding exactly when every required key is answered or declared, and none is in conflict. */
  lemma NothingOutstandingExactly(keys: seq<string>, facts: seq<Fact>)
    ensures PendingKeys(Fields(keys, facts)) == {} <==>
            forall k | k in keys :: !Has(facts, k, FactConflict) && (Has(facts, k, FactConfirmed) || Has(facts, k, FactDeferred))
  {
    forall k | k in keys
      ensures Outstanding(FieldFor(k, facts)) <==>
              Has(facts, k, FactConflict) || !(Has(facts, k, FactConfirmed) || Has(facts, k, FactDeferred))
    {
      ChosenExists(facts, k, FactConflict);
      ChosenExists(facts, k, FactConfirmed);
      ChosenExists(facts, k, FactDeferred);
    }
    if PendingKeys(Fields(keys, facts)) == {} {
      forall k | k in keys ensures !Outstanding(FieldFor(k, facts)) {
        assert k !in PendingKeys(Fields(keys, facts));
      }
    }
  }
}
