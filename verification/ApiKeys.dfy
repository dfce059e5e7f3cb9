/** The API key store: issuance, revocation, rotation and authentication, and what holds of it after
    every sequence of operations. A row's id is its position in the table. */
module ApiKeys {
  import opened Wrappers

  datatype Role = Admin | Developer | Viewer

  /** Hashing is exact: two secrets with the same hash are the same. */
  datatype Hash = HashOf(secret: string)

  datatype ApiKey = ApiKey(
    keyId: string, tenantId: string, role: Role, hashedSecret: Hash, rotatedFrom: Option<nat>, revokedAt: Option<real>)

  predicate Verifies(secret: string, hashed: Hash) {
    HashOf(secret) == hashed
  }

  predicate Active(row: ApiKey) {
    row.revokedAt.None?
  }

  /** The id of the active row with the key id, if any. */
  function FindActive(rows: seq<ApiKey>, keyId: string): (found: Option<nat>)
    ensures found.Some? ==> found.value < |rows| && rows[found.value].keyId == keyId && Active(rows[found.value])
    ensures found.None? ==> forall i | 0 <= i < |rows| :: rows[i].keyId == keyId ==> !Active(rows[i])
  {
    if rows == [] then None
    else
      var n := |rows| - 1;
      if rows[n].keyId == keyId && Active(rows[n]) then Some(n) else FindActive(rows[..n], keyId)
  }

  function Authenticate(rows: seq<ApiKey>, keyId: string, secret: string): Option<ApiKey> {
    match FindActive(rows, keyId)
    case None => None
    case Some(i) => if Verifies(secret, rows[i].hashedSecret) then Some(rows[i]) else None
  }

  // ---------- Operations ----------

  /** newKeyId and secret are the fresh values an operation draws. */
  datatype Operation =
    | Create(tenantId: string, role: Role, newKeyId: string, secret: string)
    | Revoke(keyId: string, now: real)
    | Rotate(keyId: string, now: real, newKeyId: string, secret: string)

  function Revoked(rows: seq<ApiKey>, i: nat, now: real): seq<ApiKey>
    requires i < |rows|
  {
    rows[i := rows[i].(revokedAt := Some(now))]
  }

  /** Rotating a key that is not active raises and changes nothing. */
  function Apply(rows: seq<ApiKey>, op: Operation): seq<ApiKey> {
    match op
    case Create(tenantId, role, newKeyId, secret) =>
      rows + [ApiKey(newKeyId, tenantId, role, HashOf(secret), None, None)]
    case Revoke(keyId, now) =>
      (match FindActive(rows, keyId)
       case None => rows
       case Some(i) => Revoked(rows, i, now))
    case Rotate(keyId, now, newKeyId, secret) =>
      (match FindActive(rows, keyId)
       case None => rows
       case Some(i) =>
         Revoked(rows, i, now) + [ApiKey(newKeyId, rows[i].tenantId, rows[i].role, HashOf(secret), Some(i), None)])
  }

  /** The key id an operation draws has never been issued: the column is unique. */
  predicate Fresh(rows: seq<ApiKey>, op: Operation) {
    op.Revoke? || forall i | 0 <= i < |rows| :: rows[i].keyId != op.newKeyId
  }

  /** The store after a sequence of operations. */
  function Rows(ops: seq<Operation>): seq<ApiKey> {
    if ops == [] then [] else Apply(Rows(ops[..|ops| - 1]), ops[|ops| - 1])
  }

  predicate AllFresh(ops: seq<Operation>) {
    ops == [] || (AllFresh(ops[..|ops| - 1]) && Fresh(Rows(ops[..|ops| - 1]), ops[|ops| - 1]))
  }

  lemma OneMore(ops: seq<Operation>, op: Operation)
    ensures Rows(ops + [op]) == Apply(Rows(ops), op)
    ensures AllFresh(ops + [op]) <==> AllFresh(ops) && Fresh(Rows(ops), op)
  {
  }

  class ApiKeyStore {
    var rows: seq<ApiKey>
    ghost var history: seq<Operation>

    ghost predicate Valid()
      reads this
    {
      rows == Rows(history) && AllFresh(history)
    }

    constructor ()
      ensures Valid() && history == []
    {
      rows := [];
      history := [];
    }

    method Create(tenantId: string, role: Role, newKeyId: string, secret: string) returns (issued: (string, string))
      requires Valid() && Fresh(rows, Operation.Create(tenantId, role, newKeyId, secret))
      modifies this
      ensures Valid() && history == old(history) + [Operation.Create(tenantId, role, newKeyId, secret)]
      ensures issued == (newKeyId, secret)
      ensures rows == old(rows) + [ApiKey(newKeyId, tenantId, role, HashOf(secret), None, None)]
    {
      OneMore(history, Operation.Create(tenantId, role, newKeyId, secret));
      rows := rows + [ApiKey(newKeyId, tenantId, role, HashOf(secret), None, None)];
      history := history + [Operation.Create(tenantId, role, newKeyId, secret)];
      issued := (newKeyId, secret);
    }

    method Revoke(keyId: string, now: real)
      requires Valid()
      modifies this
      ensures Valid() && history == old(history) + [Operation.Revoke(keyId, now)]
      ensures match FindActive(old(rows), keyId)
              case None => rows == old(rows)
              case Some(i) => rows == old(rows)[i := old(rows)[i].(revokedAt := Some(now))]
    {
      OneMore(history, Operation.Revoke(keyId, now));
      var record := FindActive(rows, keyId);
      if record.Some? {
        rows := rows[record.value := rows[record.value].(revokedAt := Some(now))];
      }
      history := history + [Operation.Revoke(keyId, now)];
    }

    /** None stands for the ValueError. */
    method Rotate(keyId: string, now: real, newKeyId: string, secret: string) returns (issued: Option<(string, string)>)
      requires Valid() && Fresh(rows, Operation.Rotate(keyId, now, newKeyId, secret))
      modifies this
      ensures Valid() && history == old(history) + [Operation.Rotate(keyId, now, newKeyId, secret)]
      ensures issued == if FindActive(old(rows), keyId).Some? then Some((newKeyId, secret)) else None
      ensures match FindActive(old(rows), keyId)
              case None => rows == old(rows)
              case Some(i) =>
                var replaced := old(rows)[i];
                rows == old(rows)[i := replaced.(revokedAt := Some(now))]
                        + [ApiKey(newKeyId, replaced.tenantId, replaced.role, HashOf(secret), Some(i), None)]
    {
      OneMore(history, Operation.Rotate(keyId, now, newKeyId, secret));
      history := history + [Operation.Rotate(keyId, now, newKeyId, secret)];
      var found := FindActive(rows, keyId);
      if found.None? {
        return None;
      }
      var old_ := rows[found.value];
      rows := rows[found.value := old_.(revokedAt := Some(now))];
      rows := rows + [ApiKey(newKeyId, old_.tenantId, old_.role, HashOf(secret), Some(found.value), None)];
      issued := Some((newKeyId, secret));
    }
  }

  // ---------- Lineages ----------

  /** rotated_from links point back to revoked rows of the same tenant and role, no two to the same
      row, and key ids are unique. */
  ghost predicate WellLinked(rows: seq<ApiKey>) {
    && (forall i, j | 0 <= i < j < |rows| :: rows[i].keyId != rows[j].keyId)
    && (forall i | 0 <= i < |rows| && rows[i].rotatedFrom.Some? :: LinkedBack(rows, i))
    && (forall i, j | 0 <= i < j < |rows| && rows[i].rotatedFrom.Some? :: rows[i].rotatedFrom != rows[j].rotatedFrom)
  }

  predicate LinkedBack(rows: seq<ApiKey>, i: nat)
    requires i < |rows| && rows[i].rotatedFrom.Some?
  {
    var p := rows[i].rotatedFrom.value;
    p < i && rows[p].tenantId == rows[i].tenantId && rows[p].role == rows[i].role && !Active(rows[p])
  }

  lemma RevokingKeepsLinks(rows: seq<ApiKey>, i: nat, now: real)
    requires WellLinked(rows) && i < |rows|
    ensures WellLinked(Revoked(rows, i, now))
  {
  }

  lemma IssuingKeepsLinks(rows: seq<ApiKey>, row: ApiKey)
    requires WellLinked(rows)
    requires forall i | 0 <= i < |rows| :: rows[i].keyId != row.keyId
    requires row.rotatedFrom.Some? ==>
               && row.rotatedFrom.value < |rows| && !Active(rows[row.rotatedFrom.value])
               && rows[row.rotatedFrom.value].tenantId == row.tenantId && rows[row.rotatedFrom.value].role == row.role
               && forall i | 0 <= i < |rows| :: rows[i].rotatedFrom != row.rotatedFrom
    ensures WellLinked(rows + [row])
  {
  }

  lemma OperationKeepsLinks(rows: seq<ApiKey>, op: Operation)
    requires WellLinked(rows) && Fresh(rows, op)
    ensures WellLinked(Apply(rows, op))
  {
    match op
    case Create(tenantId, role, newKeyId, secret) =>
      IssuingKeepsLinks(rows, ApiKey(newKeyId, tenantId, role, HashOf(secret), None, None));
    case Revoke(keyId, now) =>
      if FindActive(rows, keyId).Some? {
        RevokingKeepsLinks(rows, FindActive(rows, keyId).value, now);
      }
    case Rotate(keyId, now, newKeyId, secret) =>
      if FindActive(rows, keyId).Some? {
        var i := FindActive(rows, keyId).value;
        RevokingKeepsLinks(rows, i, now);
        forall j | 0 <= j < |rows|
          ensures rows[j].rotatedFrom != Some(i)
        {
          assert rows[j].rotatedFrom.Some? ==> LinkedBack(rows, j);
        }
        IssuingKeepsLinks(Revoked(rows, i, now),
                          ApiKey(newKeyId, rows[i].tenantId, rows[i].role, HashOf(secret), Some(i), None));
      }
  }

  lemma {:induction false} EveryStoreIsWellLinked(ops: seq<Operation>)
    requires AllFresh(ops)
    ensures WellLinked(Rows(ops))
  {
    if ops != [] {
      EveryStoreIsWellLinked(ops[..|ops| - 1]);
      OperationKeepsLinks(Rows(ops[..|ops| - 1]), ops[|ops| - 1]);
    }
  }

  /** The first key of a row's lineage. */
  function Root(rows: seq<ApiKey>, i: nat): nat
    requires WellLinked(rows) && i < |rows|
  {
    if rows[i].rotatedFrom.None? then i
    else
      assert LinkedBack(rows, i);
      Root(rows, rows[i].rotatedFrom.value)
  }

  function Depth(rows: seq<ApiKey>, i: nat): nat
    requires WellLinked(rows) && i < |rows|
  {
    if rows[i].rotatedFrom.None? then 0
    else
      assert LinkedBack(rows, i);
      1 + Depth(rows, rows[i].rotatedFrom.value)
  }

  lemma {:induction false} LineageDoesNotBranch(rows: seq<ApiKey>, i: nat, j: nat)
    requires WellLinked(rows) && i < |rows| && j < |rows|
    requires Root(rows, i) == Root(rows, j) && Depth(rows, i) == Depth(rows, j)
    ensures i == j
    decreases Depth(rows, i)
  {
    if Depth(rows, i) > 0 {
      assert LinkedBack(rows, i) && LinkedBack(rows, j);
      LineageDoesNotBranch(rows, rows[i].rotatedFrom.value, rows[j].rotatedFrom.value);
      assert rows[i].rotatedFrom == rows[j].rotatedFrom;
    }
  }

  /** A row deeper in the same lineage has this row among those it was rotated from, so it is revoked. */
  lemma {:induction false} EarlierKeyIsRevoked(rows: seq<ApiKey>, i: nat, j: nat)
    requires WellLinked(rows) && i < |rows| && j < |rows|
    requires Root(rows, i) == Root(rows, j) && Depth(rows, i) < Depth(rows, j)
    ensures !Active(rows[i])
    decreases Depth(rows, j)
  {
    assert LinkedBack(rows, j);
    var p := rows[j].rotatedFrom.value;
    if Depth(rows, p) == Depth(rows, i) {
      LineageDoesNotBranch(rows, i, p);
    } else {
      EarlierKeyIsRevoked(rows, i, p);
    }
  }

  lemma {:induction false} LineageKeepsOwner(rows: seq<ApiKey>, i: nat)
    requires WellLinked(rows) && i < |rows|
    ensures Root(rows, i) <= i && rows[Root(rows, i)].rotatedFrom.None?
    ensures rows[Root(rows, i)].tenantId == rows[i].tenantId && rows[Root(rows, i)].role == rows[i].role
    decreases i
  {
    if rows[i].rotatedFrom.Some? {
      assert LinkedBack(rows, i);
      LineageKeepsOwner(rows, rows[i].rotatedFrom.value);
    }
  }

  /** In every reachable store: a lineage has one tenant and one role, its rows form a single chain,
      a row with a successor is revoked, and at most one of its keys is active. */
  lemma LineagesAreChains(ops: seq<Operation>, i: nat, j: nat)
    requires AllFresh(ops) && i < |Rows(ops)| && j < |Rows(ops)|
    ensures WellLinked(Rows(ops))
    ensures Rows(ops)[j].rotatedFrom == Some(i) ==> i < j && !Active(Rows(ops)[i])
    ensures Root(Rows(ops), i) == Root(Rows(ops), j) ==>
              && Rows(ops)[i].tenantId == Rows(ops)[j].tenantId && Rows(ops)[i].role == Rows(ops)[j].role
              && (i != j ==> Depth(Rows(ops), i) != Depth(Rows(ops), j))
              && (Active(Rows(ops)[i]) && Active(Rows(ops)[j]) ==> i == j)
  {
    EveryStoreIsWellLinked(ops);
    var rows := Rows(ops);
    assert rows[j].rotatedFrom.Some? ==> LinkedBack(rows, j);
    if Root(rows, i) == Root(rows, j) {
      LineageKeepsOwner(rows, i);
      LineageKeepsOwner(rows, j);
      if Depth(rows, i) < Depth(rows, j) {
        EarlierKeyIsRevoked(rows, i, j);
      } else if Depth(rows, j) < Depth(rows, i) {
        EarlierKeyIsRevoked(rows, j, i);
      } else {
        LineageDoesNotBranch(rows, i, j);
      }
    }
  }

  // ---------- How many keys are active ----------

  function ActiveKeys(rows: seq<ApiKey>, tenant: string, role: Role): nat {
    if rows == [] then 0
    else
      var row := rows[|rows| - 1];
      ActiveKeys(rows[..|rows| - 1], tenant, role)
        + (if row.tenantId == tenant && row.role == role && Active(row) then 1 else 0)
  }

  lemma {:induction false} RevokingRemovesOne(rows: seq<ApiKey>, i: nat, now: real, tenant: string, role: Role)
    requires i < |rows| && Active(rows[i])
    ensures ActiveKeys(Revoked(rows, i, now), tenant, role)
         == ActiveKeys(rows, tenant, role) - (if rows[i].tenantId == tenant && rows[i].role == role then 1 else 0)
  {
    var n := |rows| - 1;
    if i < n {
      RevokingRemovesOne(rows[..n], i, now, tenant, role);
      assert Revoked(rows, i, now)[..n] == Revoked(rows[..n], i, now);
    } else {
      assert Revoked(rows, i, now)[..n] == rows[..n];
    }
  }

  predicate NamesActiveKeyOf(rows: seq<ApiKey>, keyId: string, tenant: string, role: Role) {
    match FindActive(rows, keyId)
    case None => false
    case Some(i) => rows[i].tenantId == tenant && rows[i].role == role
  }

  /** Rotation preserves the number of active keys of every tenant and role; a revocation takes away
      exactly the key it names, if that was active; a creation adds one. */
  lemma ActiveKeysAfter(rows: seq<ApiKey>, op: Operation, tenant: string, role: Role)
    ensures op.Rotate? ==> ActiveKeys(Apply(rows, op), tenant, role) == ActiveKeys(rows, tenant, role)
    ensures op.Create? ==>
              ActiveKeys(Apply(rows, op), tenant, role)
              == ActiveKeys(rows, tenant, role) + (if op.tenantId == tenant && op.role == role then 1 else 0)
    ensures op.Revoke? ==>
              ActiveKeys(Apply(rows, op), tenant, role)
              == ActiveKeys(rows, tenant, role) - (if NamesActiveKeyOf(rows, op.keyId, tenant, role) then 1 else 0)
  {
    var after := Apply(rows, op);
    if op.Create? {
      assert after[..|rows|] == rows;
    } else {
      var found := FindActive(rows, op.keyId);
      if found.Some? {
        RevokingRemovesOne(rows, found.value, op.now, tenant, role);
        assert op.Rotate? ==> after[..|rows|] == Revoked(rows, found.value, op.now);
      }
    }
  }

  // ---------- Authentication against the history ----------

  predicate Retires(op: Operation, keyId: string) {
    !op.Create? && op.keyId == keyId
  }

  predicate Kept(ops: seq<Operation>, n: nat, keyId: string) {
    forall m | n < m < |ops| :: !Retires(ops[m], keyId)
  }

  /** The n-th operation handed out the key with the secret: a creation, or a rotation of a key that
      worked at the time. */
  ghost predicate Issues(ops: seq<Operation>, n: nat, keyId: string, secret: string)
    requires n < |ops|
    decreases n, 2
  {
    && HandsOut(ops[n], keyId) && ops[n].secret == secret
    && (ops[n].Rotate? ==> Live(ops[..n], ops[n].keyId))
  }

  predicate HandsOut(op: Operation, keyId: string) {
    !op.Revoke? && op.newKeyId == keyId
  }

  /** The key works with some secret. */
  ghost predicate Live(ops: seq<Operation>, keyId: string)
    decreases |ops|, 1
  {
    exists s :: Works(ops, keyId, s)
  }

  /** On the history alone: the key was issued with the secret and nothing has retired it since. */
  ghost predicate Works(ops: seq<Operation>, keyId: string, secret: string)
    decreases |ops|, 0
  {
    exists n: nat :: n < |ops| && Issues(ops, n, keyId, secret) && Kept(ops, n, keyId)
  }

  lemma WorksOneMore(ops: seq<Operation>, op: Operation, keyId: string, secret: string)
    ensures Works(ops + [op], keyId, secret) <==>
              ((Works(ops, keyId, secret) && !Retires(op, keyId)) || Issues(ops + [op], |ops|, keyId, secret))
  {
    var longer := ops + [op];
    forall n: nat | n < |ops|
      ensures Issues(longer, n, keyId, secret) <==> Issues(ops, n, keyId, secret)
    {
      assert longer[..n] == ops[..n];
    }
    if Works(ops, keyId, secret) && !Retires(op, keyId) {
      var n: nat :| n < |ops| && Issues(ops, n, keyId, secret) && Kept(ops, n, keyId);
      assert Issues(longer, n, keyId, secret) && Kept(longer, n, keyId);
    }
    if Issues(longer, |ops|, keyId, secret) {
      assert Kept(longer, |ops|, keyId);
    }
    if Works(longer, keyId, secret) {
      var n: nat :| n < |longer| && Issues(longer, n, keyId, secret) && Kept(longer, n, keyId);
      if n < |ops| {
        assert Issues(ops, n, keyId, secret);
        assert forall m | n < m < |ops| :: longer[m] == ops[m];
        assert longer[|ops|] == op && Kept(ops, n, keyId);
      }
    }
  }

  /** What one operation does to authentication. */
  lemma {:induction false} AuthenticateAfter(rows: seq<ApiKey>, op: Operation, keyId: string, secret: string)
    requires WellLinked(rows) && Fresh(rows, op)
    ensures Authenticate(Apply(rows, op), keyId, secret).Some? <==>
              ((Authenticate(rows, keyId, secret).Some? && !Retires(op, keyId))
               || (!op.Revoke? && op.newKeyId == keyId && op.secret == secret
                   && (op.Rotate? ==> FindActive(rows, op.keyId).Some?)))
  {
    var after := Apply(rows, op);
    OperationKeepsLinks(rows, op);
    FoundByKey(rows, keyId);
    FoundByKey(after, keyId);
    if !op.Create? {
      FoundByKey(rows, op.keyId);
    }
  }

  /** With unique key ids, the active row found is the only row with the key id. */
  lemma FoundByKey(rows: seq<ApiKey>, keyId: string)
    requires WellLinked(rows)
    ensures forall i | 0 <= i < |rows| && rows[i].keyId == keyId && Active(rows[i]) ::
              FindActive(rows, keyId) == Some(i)
    ensures forall i | 0 <= i < |rows| && rows[i].keyId == keyId ::
              FindActive(rows, keyId).Some? ==> FindActive(rows, keyId).value == i
  {
  }

  /** A key authenticates with a secret exactly when the history says it works. */
  lemma {:induction false} AuthenticationRefinesHistory(ops: seq<Operation>, keyId: string, secret: string)
    requires AllFresh(ops)
    ensures Authenticate(Rows(ops), keyId, secret).Some? <==> Works(ops, keyId, secret)
    decreases |ops|
  {
    if ops != [] {
      var earlier, op := ops[..|ops| - 1], ops[|ops| - 1];
      assert ops == earlier + [op];
      var rows := Rows(earlier);
      EveryStoreIsWellLinked(earlier);
      AuthenticationRefinesHistory(earlier, keyId, secret);
      WorksOneMore(earlier, op, keyId, secret);
      AuthenticateAfter(rows, op, keyId, secret);
      assert (earlier + [op])[..|earlier|] == earlier;
      if op.Rotate? {
        forall s
          ensures Authenticate(rows, op.keyId, s).Some? <==> Works(earlier, op.keyId, s)
        {
          AuthenticationRefinesHistory(earlier, op.keyId, s);
        }
        LiveByRows(earlier, rows, op.keyId);
      }
      IssuedLast(earlier, op, keyId, secret);
    }
  }

  lemma LiveByRows(ops: seq<Operation>, rows: seq<ApiKey>, keyId: string)
    requires forall s :: Authenticate(rows, keyId, s).Some? <==> Works(ops, keyId, s)
    ensures FindActive(rows, keyId).Some? <==> Live(ops, keyId)
  {
    if FindActive(rows, keyId).Some? {
      assert Authenticate(rows, keyId, rows[FindActive(rows, keyId).value].hashedSecret.secret).Some?;
    }
  }

  lemma IssuedLast(ops: seq<Operation>, op: Operation, keyId: string, secret: string)
    ensures Issues(ops + [op], |ops|, keyId, secret) <==>
              HandsOut(op, keyId) && op.secret == secret && (op.Rotate? ==> Live(ops, op.keyId))
  {
    assert (ops + [op])[..|ops|] == ops;
  }

  // ---------- Whom an authenticated key belongs to ----------

  /** On the history alone: a creation started the key for the tenant and role, or a rotation of a working
      key that had been started for them handed it out. */
  ghost predicate StartedFor(ops: seq<Operation>, keyId: string, tenant: string, role: Role)
    decreases |ops|, 0
  {
    exists n: nat :: n < |ops| && HandsOut(ops[n], keyId) && StartedAt(ops, n, tenant, role)
  }

  ghost predicate StartedAt(ops: seq<Operation>, n: nat, tenant: string, role: Role)
    requires n < |ops|
    decreases n, 1
  {
    && (ops[n].Create? ==> ops[n].tenantId == tenant && ops[n].role == role)
    && (ops[n].Rotate? ==> Live(ops[..n], ops[n].keyId) && StartedFor(ops[..n], ops[n].keyId, tenant, role))
  }

  /** What one more operation starts. */
  ghost predicate StartsNow(ops: seq<Operation>, op: Operation, keyId: string, tenant: string, role: Role) {
    && HandsOut(op, keyId)
    && (op.Create? ==> op.tenantId == tenant && op.role == role)
    && (op.Rotate? ==> Live(ops, op.keyId) && StartedFor(ops, op.keyId, tenant, role))
  }

  lemma StartedOneMore(ops: seq<Operation>, op: Operation, keyId: string, tenant: string, role: Role)
    ensures StartedFor(ops + [op], keyId, tenant, role) <==>
              StartedFor(ops, keyId, tenant, role) || StartsNow(ops, op, keyId, tenant, role)
  {
    var longer := ops + [op];
    forall n: nat | n < |ops|
      ensures longer[n] == ops[n] && (StartedAt(longer, n, tenant, role) <==> StartedAt(ops, n, tenant, role))
    {
      assert longer[..n] == ops[..n];
    }
    assert longer[..|ops|] == ops && longer[|ops|] == op;
    if StartedFor(ops, keyId, tenant, role) {
      var n: nat :| n < |ops| && HandsOut(ops[n], keyId) && StartedAt(ops, n, tenant, role);
      assert HandsOut(longer[n], keyId) && StartedAt(longer, n, tenant, role);
    }
    if StartsNow(ops, op, keyId, tenant, role) {
      assert HandsOut(longer[|ops|], keyId) && StartedAt(longer, |ops|, tenant, role);
    }
    if StartedFor(longer, keyId, tenant, role) {
      var n: nat :| n < |longer| && HandsOut(longer[n], keyId) && StartedAt(longer, n, tenant, role);
      assert n < |ops| ==> HandsOut(ops[n], keyId) && StartedAt(ops, n, tenant, role);
    }
  }

  /** A row with the key id that belongs to the tenant and role. */
  ghost predicate Owned(rows: seq<ApiKey>, keyId: string, tenant: string, role: Role) {
    exists i :: 0 <= i < |rows| && rows[i].keyId == keyId && rows[i].tenantId == tenant && rows[i].role == role
  }

  /** What one operation does to ownership: nothing changes hands, and a new key belongs to whom it was created
      for, or to the owner of the active key it replaces. */
  lemma OwnedAfter(rows: seq<ApiKey>, op: Operation, keyId: string, tenant: string, role: Role)
    requires WellLinked(rows)
    ensures Owned(Apply(rows, op), keyId, tenant, role) <==>
              || Owned(rows, keyId, tenant, role)
              || (&& !op.Revoke? && op.newKeyId == keyId
                  && (op.Create? ==> op.tenantId == tenant && op.role == role)
                  && (op.Rotate? ==> FindActive(rows, op.keyId).Some? && Owned(rows, op.keyId, tenant, role)))
  {
    var after := Apply(rows, op);
    assert forall i | 0 <= i < |rows| ::
        after[i].keyId == rows[i].keyId && after[i].tenantId == rows[i].tenantId && after[i].role == rows[i].role;
    if Owned(rows, keyId, tenant, role) {
      var i :| 0 <= i < |rows| && rows[i].keyId == keyId && rows[i].tenantId == tenant && rows[i].role == role;
      assert after[i].keyId == keyId && after[i].tenantId == tenant && after[i].role == role;
    }
    if |after| > |rows| {
      assert after[|rows|] == after[|after| - 1];
    }
  }

  /** The rows say whose a key is exactly as the history does. */
  lemma {:induction false} OwnershipRefinesHistory(ops: seq<Operation>, keyId: string, tenant: string, role: Role)
    requires AllFresh(ops)
    ensures Owned(Rows(ops), keyId, tenant, role) <==> StartedFor(ops, keyId, tenant, role)
    decreases |ops|
  {
    if ops != [] {
      var earlier, op := ops[..|ops| - 1], ops[|ops| - 1];
      assert ops == earlier + [op];
      EveryStoreIsWellLinked(earlier);
      OwnershipRefinesHistory(earlier, keyId, tenant, role);
      StartedOneMore(earlier, op, keyId, tenant, role);
      OwnedAfter(Rows(earlier), op, keyId, tenant, role);
      if op.Rotate? {
        OwnershipRefinesHistory(earlier, op.keyId, tenant, role);
        WorksWithSome(earlier, op.keyId);
      }
    }
  }

  /** A key is active exactly when it works with some secret. */
  lemma WorksWithSome(ops: seq<Operation>, keyId: string)
    requires AllFresh(ops)
    ensures FindActive(Rows(ops), keyId).Some? <==> Live(ops, keyId)
  {
    forall s
      ensures Authenticate(Rows(ops), keyId, s).Some? <==> Works(ops, keyId, s)
    {
      AuthenticationRefinesHistory(ops, keyId, s);
    }
    LiveByRows(ops, Rows(ops), keyId);
  }

  /** What authentication hands back: the stored row with the given key id, active, with the hash of the given
      secret, and of the one tenant and role the key's chain of rotations was started for. */
  lemma AuthenticatedRow(ops: seq<Operation>, keyId: string, secret: string, tenant: string, role: Role)
    requires AllFresh(ops) && Authenticate(Rows(ops), keyId, secret).Some?
    ensures var row := Authenticate(Rows(ops), keyId, secret).value;
            && row in Rows(ops) && row.keyId == keyId && row.revokedAt == None && row.hashedSecret == HashOf(secret)
            && (StartedFor(ops, keyId, tenant, role) <==> row.tenantId == tenant && row.role == role)
  {
    var rows := Rows(ops);
    EveryStoreIsWellLinked(ops);
    OwnershipRefinesHistory(ops, keyId, tenant, role);
    var i := FindActive(rows, keyId).value;
    assert rows[i].keyId == keyId;
    assert forall j | 0 <= j < |rows| && rows[j].keyId == keyId :: j == i;
  }

  predicate Known(rows: seq<ApiKey>, keyId: string) {
    exists i :: 0 <= i < |rows| && rows[i].keyId == keyId
  }

  lemma KnownStaysKnown(rows: seq<ApiKey>, op: Operation, keyId: string)
    requires Known(rows, keyId)
    ensures Known(Apply(rows, op), keyId)
  {
    var i :| 0 <= i < |rows| && rows[i].keyId == keyId;
    assert Apply(rows, op)[i].keyId == keyId;
  }

  /** Once an issued key does not authenticate with a secret, it never will again. */
  lemma {:induction false} DeadKeysStayDead(ops: seq<Operation>, more: seq<Operation>, keyId: string, secret: string)
    requires AllFresh(ops + more) && AllFresh(ops)
    requires Known(Rows(ops), keyId) && Authenticate(Rows(ops), keyId, secret).None?
    ensures Known(Rows(ops + more), keyId) && Authenticate(Rows(ops + more), keyId, secret).None?
    decreases |more|
  {
    if more == [] {
      assert ops + more == ops;
    } else {
      var earlier, op := more[..|more| - 1], more[|more| - 1];
      assert ops + more == ops + earlier + [op];
      OneMore(ops + earlier, op);
      DeadKeysStayDead(ops, earlier, keyId, secret);
      EveryStoreIsWellLinked(ops + earlier);
      AuthenticateAfter(Rows(ops + earlier), op, keyId, secret);
      KnownStaysKnown(Rows(ops + earlier), op, keyId);
    }
  }
}
