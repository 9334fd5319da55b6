/** The dashboard's mutable state: the account collection, the health-score
    weights and the trigger configuration, with the add, update and delete
    operations on accounts and the settings save that only commits weights
    totalling 100. */
module Repository {
  import opened Accounts
  import opened Scoring

  // ---------------------------------------------------------------------
  // Fresh ids

  /** `Math.max(...ids, 0)`: the largest id, or 0 when it is larger. */
  function MaxId(cs: seq<Customer>): (m: int)
    ensures m >= 0
    ensures forall c :: c in cs ==> c.id <= m
    ensures m == 0 || exists c :: c in cs && c.id == m
  {
    if cs == [] then 0
    else
      var rest := MaxId(cs[1..]);
      assert forall c :: c in cs[1..] ==> c in cs;
      if cs[0].id > rest then cs[0].id else rest
  }

  /** The id given to the next account added. */
  function NextId(cs: seq<Customer>): (id: int)
    ensures id >= 1
    ensures forall c :: c in cs ==> c.id < id
  {
    MaxId(cs) + 1
  }

  /** No two accounts share an id. */
  predicate UniqueIds(cs: seq<Customer>) {
    forall i, j :: 0 <= i < j < |cs| ==> cs[i].id != cs[j].id
  }

  // ---------------------------------------------------------------------
  // Partial records

  /** The fields an update carries: `{...c, ...data}` takes each field
      present in `data` and keeps the rest of `c`. */
  datatype Patch = Patch(
    id: Option<int>,
    name: Option<string>,
    mrr: Option<int>,
    stage: Option<string>,
    daysInStage: Option<int>,
    lastLogin: Option<int>,
    apiUsage: Option<int>,
    supportTickets: Option<int>,
    paymentStatus: Option<string>,
    renewalDays: Option<int>,
    contractStart: Option<string>,
    trend: Option<string>,
    closedBy: Option<string>,
    csOwner: Option<string>,
    dealSource: Option<string>,
    lastTouchDate: Option<string>,
    tasks: Option<seq<Task>>)

  function Pick<T>(field: Option<T>, current: T): T {
    match field
    case Some(v) => v
    case None => current
  }

  function Merge(c: Customer, p: Patch): Customer {
    Customer(
      Pick(p.id, c.id), Pick(p.name, c.name), Pick(p.mrr, c.mrr), Pick(p.stage, c.stage),
      Pick(p.daysInStage, c.daysInStage), Pick(p.lastLogin, c.lastLogin),
      Pick(p.apiUsage, c.apiUsage), Pick(p.supportTickets, c.supportTickets),
      Pick(p.paymentStatus, c.paymentStatus), Pick(p.renewalDays, c.renewalDays),
      Pick(p.contractStart, c.contractStart), Pick(p.trend, c.trend),
      Pick(p.closedBy, c.closedBy), Pick(p.csOwner, c.csOwner),
      Pick(p.dealSource, c.dealSource), Pick(p.lastTouchDate, c.lastTouchDate),
      Pick(p.tasks, c.tasks))
  }

  const NoChanges := Patch(None, None, None, None, None, None, None, None, None,
                           None, None, None, None, None, None, None, None)

  /** A whole record as a patch: what the edit form submits. */
  function Whole(d: Customer): Patch {
    Patch(Some(d.id), Some(d.name), Some(d.mrr), Some(d.stage), Some(d.daysInStage),
          Some(d.lastLogin), Some(d.apiUsage), Some(d.supportTickets), Some(d.paymentStatus),
          Some(d.renewalDays), Some(d.contractStart), Some(d.trend), Some(d.closedBy),
          Some(d.csOwner), Some(d.dealSource), Some(d.lastTouchDate), Some(d.tasks))
  }

  /** An empty patch changes nothing. */
  lemma MergeNoChanges(c: Customer)
    ensures Merge(c, NoChanges) == c
  {
  }

  /** A whole-record patch replaces the record. */
  lemma MergeWhole(c: Customer, d: Customer)
    ensures Merge(c, Whole(d)) == d
  {
  }

  /** A patch only changes the fields it carries: one without an id keeps the id. */
  lemma MergeKeepsId(c: Customer, p: Patch)
    requires p.id.None?
    ensures Merge(c, p).id == c.id
  {
  }

  // ---------------------------------------------------------------------
  // The collection updates, as values

  /** `customers.map(c => c.id === id ? {...c, ...data} : c)`. */
  function WithUpdated(cs: seq<Customer>, id: int, p: Patch): (r: seq<Customer>)
    ensures |r| == |cs|
    ensures forall i :: 0 <= i < |cs| && cs[i].id != id ==> r[i] == cs[i]
    ensures forall i :: 0 <= i < |cs| && cs[i].id == id ==> r[i] == Merge(cs[i], p)
  {
    if cs == [] then []
    else [if cs[0].id == id then Merge(cs[0], p) else cs[0]] + WithUpdated(cs[1..], id, p)
  }

  /** `customers.filter(c => c.id !== id)`. */
  function WithoutId(cs: seq<Customer>, id: int): (r: seq<Customer>)
    ensures |r| <= |cs|
    ensures forall c :: c in r <==> c in cs && c.id != id
  {
    if cs == [] then []
    else (if cs[0].id != id then [cs[0]] else []) + WithoutId(cs[1..], id)
  }

  lemma {:induction false} WithoutIdAppend(a: seq<Customer>, b: seq<Customer>, id: int)
    ensures WithoutId(a + b, id) == WithoutId(a, id) + WithoutId(b, id)
  {
    if a == [] {
      assert a + b == b;
    } else {
      assert (a + b)[1..] == a[1..] + b;
      WithoutIdAppend(a[1..], b, id);
    }
  }

  /** Removing an id nobody carries changes nothing, order included. */
  lemma {:induction false} WithoutAbsentId(cs: seq<Customer>, id: int)
    requires forall c :: c in cs ==> c.id != id
    ensures WithoutId(cs, id) == cs
  {
    if cs != [] {
      var rest := cs[1..];
      assert cs[0] in cs;
      assert forall c :: c in rest ==> c.id != id by {
        assert forall c :: c in rest ==> c in cs;
      }
      WithoutAbsentId(rest, id);
      assert WithoutId(cs, id) == [cs[0]] + WithoutId(rest, id);
      assert cs == [cs[0]] + rest;
    }
  }

  /** With unique ids, deleting a present id removes exactly one account. */
  lemma {:induction false} DeleteRemovesOne(cs: seq<Customer>, id: int)
    requires UniqueIds(cs)
    requires exists c :: c in cs && c.id == id
    ensures |WithoutId(cs, id)| == |cs| - 1
  {
    assert cs == [cs[0]] + cs[1..];
    assert UniqueIds(cs[1..]);
    if cs[0].id == id {
      forall c | c in cs[1..] ensures c.id != id {
        var k :| 0 <= k < |cs[1..]| && cs[1..][k] == c;
        assert cs[k + 1] == c;
      }
      WithoutAbsentId(cs[1..], id);
    } else {
      DeleteRemovesOne(cs[1..], id);
    }
  }

  /** Update with a patch that keeps ids keeps every account's id. */
  lemma UpdateKeepsIds(cs: seq<Customer>, id: int, p: Patch)
    requires p.id.None? || p.id == Some(id)
    ensures forall i :: 0 <= i < |cs| ==> WithUpdated(cs, id, p)[i].id == cs[i].id
  {
  }

  /** Removing accounts never creates a duplicate id. */
  lemma {:induction false} DeleteKeepsUniqueIds(cs: seq<Customer>, id: int)
    requires UniqueIds(cs)
    ensures UniqueIds(WithoutId(cs, id))
  {
    if cs != [] {
      assert UniqueIds(cs[1..]);
      DeleteKeepsUniqueIds(cs[1..], id);
      forall c | c in WithoutId(cs[1..], id) ensures c.id != cs[0].id {
        var k :| 0 <= k < |cs[1..]| && cs[1..][k] == c;
        assert cs[k + 1] == c;
      }
    }
  }

  /** Deleting the account just added gives the collection back. */
  lemma AddThenDeleteRestores(cs: seq<Customer>, draft: Customer)
    ensures WithoutId(cs + [draft.(id := NextId(cs), tasks := [])], NextId(cs)) == cs
  {
    var added := draft.(id := NextId(cs), tasks := []);
    WithoutIdAppend(cs, [added], NextId(cs));
    WithoutAbsentId(cs, NextId(cs));
    assert [added][1..] == [];
  }

  // ---------------------------------------------------------------------
  // The state

  class Dashboard {
    var customers: seq<Customer>
    var weights: Weights
    var triggers: TriggerConfig

    /** The state's invariant: ids are unique and the weights are
        percentages totalling 100. */
    ghost predicate Valid()
      reads this
    {
      UniqueIds(customers) && NonNegative(weights) && WeightTotal(weights) == 100
    }

    /** The state when nothing was stored: the seed accounts, the default
        weights and the default triggers. */
    constructor ()
      ensures customers == SeedCustomers
      ensures weights == DefaultWeights && WeightTotal(weights) == 100
      ensures triggers == DefaultTriggers
      ensures Valid()
    {
      customers := SeedCustomers;
      weights := DefaultWeights;
      triggers := DefaultTriggers;
    }

    /** Appends the form's record with a fresh id, above every existing id,
        and no tasks. */
    method AddCustomer(draft: Customer)
      modifies this
      ensures customers == old(customers) + [draft.(id := NextId(old(customers)), tasks := [])]
      ensures forall c :: c in old(customers) ==> c.id < customers[|customers| - 1].id
      ensures UniqueIds(old(customers)) ==> UniqueIds(customers)
      ensures weights == old(weights) && triggers == old(triggers)
      ensures old(Valid()) ==> Valid()
    {
      var added := draft.(id := NextId(customers), tasks := []);
      customers := customers + [added];
      assert forall i :: 0 <= i < |customers| - 1 ==> customers[i] in old(customers);
    }

    /** Merges `data` into every account with this id; nothing else moves. */
    method UpdateCustomer(id: int, data: Patch)
      modifies this
      ensures customers == WithUpdated(old(customers), id, data)
      ensures weights == old(weights) && triggers == old(triggers)
      ensures old(Valid()) && (data.id.None? || data.id == Some(id)) ==> Valid()
    {
      customers := WithUpdated(customers, id, data);
      if data.id.None? || data.id == Some(id) {
        UpdateKeepsIds(old(customers), id, data);
      }
    }

    /** Removes every account with this id, keeping the others in order. */
    method DeleteCustomer(id: int)
      modifies this
      ensures customers == WithoutId(old(customers), id)
      ensures UniqueIds(old(customers)) ==> UniqueIds(customers)
      ensures weights == old(weights) && triggers == old(triggers)
      ensures old(Valid()) ==> Valid()
    {
      customers := WithoutId(customers, id);
      if UniqueIds(old(customers)) {
        DeleteKeepsUniqueIds(old(customers), id);
      }
    }

    /** The delete dialog's button: deletes only when the typed text equals
        the confirmation code shown. */
    method ConfirmDelete(id: int, typed: string, code: string) returns (deleted: bool)
      modifies this
      ensures deleted <==> typed == code
      ensures customers == if deleted then WithoutId(old(customers), id) else old(customers)
      ensures weights == old(weights) && triggers == old(triggers)
      ensures old(Valid()) ==> Valid()
    {
      deleted := typed == code;
      if deleted {
        DeleteCustomer(id);
      }
    }

    /** The settings save: commits the new weights and triggers together
        exactly when the weights total 100, and otherwise changes nothing.
        The weight sliders only produce values in 0..100. */
    method SaveSettings(newWeights: Weights, newTriggers: TriggerConfig) returns (saved: bool)
      requires NonNegative(newWeights)
      modifies this
      ensures saved <==> WeightTotal(newWeights) == 100
      ensures saved ==> weights == newWeights && triggers == newTriggers
      ensures !saved ==> weights == old(weights) && triggers == old(triggers)
      ensures WeightTotal(old(weights)) == 100 ==> WeightTotal(weights) == 100
      ensures customers == old(customers)
      ensures old(Valid()) ==> Valid()
    {
      if WeightTotal(newWeights) != 100 {
        return false;
      }
      weights := newWeights;
      triggers := newTriggers;
      saved := true;
    }
  }

  /** Every account scores in 0..100 under the weights a valid dashboard
      holds, provided its API usage is a percentage. */
  lemma DashboardScoresInRange(d: Dashboard, c: Customer)
    requires d.Valid()
    requires 0 <= c.apiUsage <= 100
    ensures 0 <= HealthScore(c, d.weights) <= 100
  {
    HealthScoreInRange(c, d.weights);
  }
}
