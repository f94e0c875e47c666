/** The policy key manager: creation, rotation and revocation of signing keys. */
module PolicyKeys {
  import opened OrderedChecks
  import opened Text
  import opened Wrappers

  datatype Status = Active | Rotated | Revoked

  type Metadata = map<string, string>

  datatype KeyRecord = KeyRecord(
    keyId: string, publicKeyPem: string, status: Status, createdAt: string,
    rotatedAt: Option<string>, revokedAt: Option<string>,
    replacementKeyId: Option<string>, revocationReason: Option<string>, metadata: Option<Metadata>)

  datatype ErrorCode =
    | KeyAlreadyExists | KeyNotFound | KeyNotActive | KeyAlreadyRevoked
    | InvalidPublicKey | InvalidInput | LifecycleHookFailed

  /** A date argument: left out, a date with its ISO rendering, or not a date. */
  datatype TimeInput = Absent | Date(iso: string) | NotADate

  /** A metadata argument; a `None` value stands for an entry that is not a string. */
  datatype MetadataInput = NoMetadata | NotARecord | MetadataEntries(entries: map<string, Option<string>>)

  /** An operation with its inputs normalised; `None` and `Err` stand for the inputs the normalisers refuse. */
  datatype Operation =
    | CreateKey(keyId: Option<string>, publicKeyPem: Option<string>, createdAt: Option<string>,
                createMetadata: Result<Option<Metadata>, ErrorCode>)
    | RotateKey(rotatedId: Option<string>, nextKeyId: Option<string>, nextPublicKeyPem: Option<string>,
                rotatedAt: Option<string>, rotateMetadata: Result<Option<Metadata>, ErrorCode>)
    | RevokeKey(revokedId: Option<string>, revokedAt: Option<string>, reason: Option<string>)

  /** `#keys`: a JavaScript map keeps its keys in insertion order, and updating a key keeps its place. */
  datatype Store = Store(order: seq<string>, records: map<string, KeyRecord>)

  // ----- input normalisation ------------------------------------------------

  /** The trimmed text, unless nothing is left of it. */
  function NonEmpty(value: string): Option<string> {
    if Trim(value) == "" then None else Some(Trim(value))
  }

  function NormalizeTimestamp(input: TimeInput, now: string): Option<string> {
    match input
    case Absent => Some(now)
    case Date(iso) => Some(iso)
    case NotADate => None
  }

  /** A reason that is left out or blank leaves the stored one alone. */
  function NormalizeReason(reason: Option<string>): Option<string> {
    if reason.Some? then NonEmpty(reason.value) else None
  }

  const PEM_START := "-----BEGIN PUBLIC KEY-----"
  const PEM_END := "-----END PUBLIC KEY-----"

  predicate IsEnclosed(text: string, start: string, end: string) {
    start <= text && |text| >= |end| && text[|text| - |end|..] == end
  }

  function NormalizePem(value: string): Option<string> {
    if IsEnclosed(Trim(value), PEM_START, PEM_END) then Some(Trim(value)) else None
  }

  /** The entries' texts, trimmed, without the entry of one name. */
  function TextsBut(entries: map<string, Option<string>>, name: string): Metadata {
    map k | k in entries && k != name :: Trim(entries[k].GetOr(""))
  }

  /** Assigning a string to `__proto__` stores nothing, so an entry of that name is checked and then lost. */
  function NormalizeMetadata(input: MetadataInput): Result<Option<Metadata>, ErrorCode> {
    match input
    case NoMetadata => Ok(None)
    case NotARecord => Err(InvalidInput)
    case MetadataEntries(entries) =>
      if forall k :: k in entries ==> entries[k].Some? && Trim(entries[k].value) != ""
      then Ok(Some(TextsBut(entries, "__proto__")))
      else Err(InvalidInput)
  }

  // ----- the operations -----------------------------------------------------

  function Put(s: Store, r: KeyRecord): Store {
    Store(if r.keyId in s.records then s.order else s.order + [r.keyId], s.records[r.keyId := r])
  }

  function NewRecord(keyId: string, pem: string, createdAt: string, metadata: Option<Metadata>): KeyRecord {
    KeyRecord(keyId, pem, Active, createdAt, None, None, None, None, metadata)
  }

  /** An operation's effect: the records it stores in order, or the error it throws before storing any. */
  type Plan = Result<seq<KeyRecord>, ErrorCode>

  function PlanCreate(s: Store, keyId: Option<string>, pem: Option<string>, at: Option<string>,
                      metadata: Result<Option<Metadata>, ErrorCode>, hookFails: bool): Plan
  {
    if keyId.None? then Err(InvalidInput)
    else if keyId.value in s.records then Err(KeyAlreadyExists)
    else if metadata.Err? then Err(InvalidInput)
    else if pem.None? then Err(InvalidPublicKey)
    else if at.None? then Err(InvalidInput)
    else if hookFails then Err(LifecycleHookFailed)
    else Ok([NewRecord(keyId.value, pem.value, at.value, metadata.value)])
  }

  function PlanRotate(s: Store, keyId: Option<string>, next: Option<string>, pem: Option<string>, at: Option<string>,
                      metadata: Result<Option<Metadata>, ErrorCode>, hookFails: bool): Plan
  {
    if keyId.None? then Err(InvalidInput)
    else if keyId.value !in s.records then Err(KeyNotFound)
    else if s.records[keyId.value].status != Active then Err(KeyNotActive)
    else if next.None? || next == keyId then Err(InvalidInput)
    else if next.value in s.records then Err(KeyAlreadyExists)
    else if at.None? || metadata.Err? then Err(InvalidInput)
    else if pem.None? then Err(InvalidPublicKey)
    else if hookFails then Err(LifecycleHookFailed)
    else Ok([s.records[keyId.value].(status := Rotated, rotatedAt := at, replacementKeyId := next),
             NewRecord(next.value, pem.value, at.value, metadata.value)])
  }

  function PlanRevoke(s: Store, keyId: Option<string>, at: Option<string>, reason: Option<string>, hookFails: bool)
    : Plan
  {
    if keyId.None? then Err(InvalidInput)
    else if keyId.value !in s.records then Err(KeyNotFound)
    else if s.records[keyId.value].status == Revoked then Err(KeyAlreadyRevoked)
    else if at.None? then Err(InvalidInput)
    else if hookFails then Err(LifecycleHookFailed)
    else
      var current := s.records[keyId.value];
      Ok([current.(status := Revoked, revokedAt := at,
                   revocationReason := if reason.Some? then reason else current.revocationReason)])
  }

  function PlanOf(s: Store, op: Operation, hookFails: bool): Plan {
    match op
    case CreateKey(id, pem, at, metadata) => PlanCreate(s, id, pem, at, metadata, hookFails)
    case RotateKey(id, next, pem, at, metadata) => PlanRotate(s, id, next, pem, at, metadata, hookFails)
    case RevokeKey(id, at, reason) => PlanRevoke(s, id, at, reason, hookFails)
  }

  function PutAll(s: Store, rs: seq<KeyRecord>): Store
    decreases |rs|
  {
    if rs == [] then s else PutAll(Put(s, rs[0]), rs[1..])
  }

  function Apply(s: Store, op: Operation, hookFails: bool): Store {
    match PlanOf(s, op, hookFails)
    case Ok(rs) => PutAll(s, rs)
    case Err(_) => s
  }

  datatype Call = Call(op: Operation, hookFails: bool)

  function Run(s: Store, calls: seq<Call>): Store
    decreases |calls|
  {
    if calls == [] then s else Run(Apply(s, calls[0].op, calls[0].hookFails), calls[1..])
  }

  const EMPTY: Store := Store([], map[])

  /** `resolvePublicKey`, for an id that does not normalise to the empty string. */
  function Resolve(s: Store, keyId: string, includeRotated: bool, includeRevoked: bool): Option<string> {
    var id := Trim(keyId);
    if id !in s.records then None
    else
      var r := s.records[id];
      if r.status == Active || (r.status == Rotated && includeRotated) || (r.status == Revoked && includeRevoked)
      then Some(r.publicKeyPem) else None
  }

  /** What no operation may change about a key. */
  predicate SameMaterial(a: KeyRecord, b: KeyRecord) {
    a.keyId == b.keyId && a.publicKeyPem == b.publicKeyPem && a.createdAt == b.createdAt && a.metadata == b.metadata
  }

  // ----- the rotation graph -------------------------------------------------

  predicate Links(s: Store, from: string, to: string) {
    from in s.records && s.records[from].replacementKeyId == Some(to)
  }

  /** The store's order lists its keys once each. */
  ghost predicate Indexed(s: Store) {
    && (forall i, j :: 0 <= i < j < |s.order| ==> s.order[i] != s.order[j])
    && (forall k :: k in s.records <==> k in s.order)
    && (forall k :: k in s.records ==> s.records[k].keyId == k)
  }

  function IndexOf(order: seq<string>, k: string): (i: nat)
    ensures i <= |order| && (k in order <==> i < |order|)
    ensures i < |order| ==> order[i] == k
  {
    if order == [] || order[0] == k then 0 else 1 + IndexOf(order[1..], k)
  }

  /** Links lead to stored keys that were created later. */
  ghost predicate Forward(s: Store) {
    forall a, b :: Links(s, a, b) ==> b in s.records && IndexOf(s.order, a) < IndexOf(s.order, b)
  }

  /** No two links meet. */
  ghost predicate Injective(s: Store) {
    forall a, b, t :: Links(s, a, t) && Links(s, b, t) ==> a == b
  }

  /** Active keys have no successor and rotated keys have one. */
  ghost predicate StatusFits(s: Store) {
    forall k :: k in s.records ==>
      && (s.records[k].status == Active ==> s.records[k].replacementKeyId == None)
      && (s.records[k].status == Rotated ==> s.records[k].replacementKeyId.Some?)
  }

  ghost predicate Inv(s: Store) { Indexed(s) && Forward(s) && Injective(s) && StatusFits(s) }

  lemma {:induction false} IndexOfAppend(order: seq<string>, x: string, k: string)
    ensures IndexOf(order + [x], k) == if k in order || k == x then
              (if k in order then IndexOf(order, k) else |order|) else |order| + 1
  {
    if order == [] {
      assert [x][1..] == [];
    } else {
      IndexOfAppend(order[1..], x, k);
      assert (order + [x])[1..] == order[1..] + [x];
      assert order == [order[0]] + order[1..];
    }
  }

  lemma AddKeepsIndexed(s: Store, r: KeyRecord)
    requires Indexed(s) && r.keyId !in s.records
    ensures Indexed(Put(s, r))
    ensures forall k :: k in s.order ==> IndexOf(Put(s, r).order, k) == IndexOf(s.order, k)
  {
    forall k ensures k in s.order ==> IndexOf(Put(s, r).order, k) == IndexOf(s.order, k) {
      IndexOfAppend(s.order, r.keyId, k);
    }
  }

  lemma AddKeepsLinks(s: Store, r: KeyRecord)
    requires r.keyId !in s.records && r.replacementKeyId == None
    ensures forall a, b :: Links(Put(s, r), a, b) <==> Links(s, a, b)
  {
  }

  /** Adding an active key without a link keeps the graph. */
  lemma AddKeepsInv(s: Store, r: KeyRecord)
    requires Inv(s) && r.keyId !in s.records && r.status == Active && r.replacementKeyId == None
    ensures Inv(Put(s, r))
  {
    var t := Put(s, r);
    AddKeepsIndexed(s, r);
    AddKeepsLinks(s, r);
    forall a, b | Links(t, a, b) ensures b in t.records && IndexOf(t.order, a) < IndexOf(t.order, b) {
      assert Links(s, a, b);
    }
  }

  /** Changing a stored key without touching its link keeps the graph, if the status still fits. */
  lemma UpdateKeepsInv(s: Store, r: KeyRecord)
    requires Inv(s) && r.keyId in s.records && r.replacementKeyId == s.records[r.keyId].replacementKeyId
    requires r.status == Revoked
    ensures Inv(Put(s, r))
  {
    assert forall a, b :: Links(Put(s, r), a, b) <==> Links(s, a, b);
  }

  lemma LinkAddsLink(s: Store, r: KeyRecord, to: string)
    requires r.keyId in s.records && s.records[r.keyId].replacementKeyId == None && r.replacementKeyId == Some(to)
    ensures forall a, b :: Links(Put(s, r), a, b) <==> Links(s, a, b) || (a == r.keyId && b == to)
  {
  }

  /** Linking a stored key without a link to a later key that nothing links to keeps the graph. */
  lemma LinkKeepsInv(s: Store, r: KeyRecord, to: string)
    requires Inv(s) && r.keyId in s.records && to in s.records && IndexOf(s.order, r.keyId) < IndexOf(s.order, to)
    requires forall a :: !Links(s, a, to)
    requires s.records[r.keyId].replacementKeyId == None
    requires r.status == Rotated && r.replacementKeyId == Some(to)
    ensures Inv(Put(s, r))
  {
    var t := Put(s, r);
    assert Indexed(t) && StatusFits(t);
    LinkAddsLink(s, r, to);
    forall a, b | Links(t, a, b) ensures b in t.records && IndexOf(t.order, a) < IndexOf(t.order, b) {
      assert Links(s, a, b) || (a == r.keyId && b == to);
    }
    forall a, b, x | Links(t, a, x) && Links(t, b, x) ensures a == b {
      assert Links(s, a, x) || (a == r.keyId && x == to);
      assert Links(s, b, x) || (b == r.keyId && x == to);
    }
  }

  /** A key that is added stands last, and nothing links to it. */
  lemma NewKeyIsUnlinked(s: Store, next: KeyRecord, k: string)
    requires Inv(s) && k in s.records && next.keyId !in s.records && next.replacementKeyId == None
    ensures IndexOf(Put(s, next).order, k) < IndexOf(Put(s, next).order, next.keyId)
    ensures forall a :: !Links(Put(s, next), a, next.keyId)
  {
    IndexOfAppend(s.order, next.keyId, next.keyId);
    IndexOfAppend(s.order, next.keyId, k);
    AddKeepsLinks(s, next);
  }

  lemma PutsCommute(s: Store, from: KeyRecord, next: KeyRecord)
    requires from.keyId in s.records && next.keyId !in s.records
    ensures Put(Put(s, next), from) == Put(Put(s, from), next)
  {
    assert Put(Put(s, next), from).records == Put(Put(s, from), next).records;
  }

  lemma RotateKeepsInv(s: Store, from: KeyRecord, next: KeyRecord)
    requires Inv(s) && from.keyId in s.records && next.keyId !in s.records
    requires s.records[from.keyId].replacementKeyId == None
    requires from.status == Rotated && from.replacementKeyId == Some(next.keyId)
    requires next.status == Active && next.replacementKeyId == None
    ensures Inv(Put(Put(s, from), next))
  {
    AddKeepsInv(s, next);
    NewKeyIsUnlinked(s, next, from.keyId);
    LinkKeepsInv(Put(s, next), from, next.keyId);
    PutsCommute(s, from, next);
  }

  /** What a planned change consists of. */
  ghost predicate FitsStore(s: Store, op: Operation, rs: seq<KeyRecord>) {
    match op
    case CreateKey(_, _, _, _) =>
      |rs| == 1 && rs[0].keyId !in s.records && rs[0].status == Active && rs[0].replacementKeyId == None
    case RotateKey(_, _, _, _, _) =>
      |rs| == 2 && rs[0].keyId in s.records && rs[1].keyId !in s.records
      && s.records[rs[0].keyId].status == Active
      && rs[0].status == Rotated && rs[0].replacementKeyId == Some(rs[1].keyId)
      && rs[1].status == Active && rs[1].replacementKeyId == None
      && SameMaterial(s.records[rs[0].keyId], rs[0])
    case RevokeKey(_, _, _) =>
      |rs| == 1 && rs[0].keyId in s.records && rs[0].status == Revoked
      && s.records[rs[0].keyId].status != Revoked
      && rs[0].replacementKeyId == s.records[rs[0].keyId].replacementKeyId
      && SameMaterial(s.records[rs[0].keyId], rs[0])
  }

  lemma PlanShape(s: Store, op: Operation, hookFails: bool)
    requires Inv(s) && PlanOf(s, op, hookFails).Ok?
    ensures FitsStore(s, op, PlanOf(s, op, hookFails).value)
  {
    match op {
      case CreateKey(_, _, _, _) =>
      case RotateKey(_, _, _, _, _) =>
      case RevokeKey(_, _, _) =>
    }
  }

  lemma ApplyIsPut(s: Store, op: Operation, hookFails: bool)
    requires Inv(s) && PlanOf(s, op, hookFails).Ok?
    ensures var rs := PlanOf(s, op, hookFails).value;
      if op.RotateKey? then |rs| == 2 && Apply(s, op, hookFails) == Put(Put(s, rs[0]), rs[1])
      else |rs| == 1 && Apply(s, op, hookFails) == Put(s, rs[0])
  {
    PlanShape(s, op, hookFails);
    var rs := PlanOf(s, op, hookFails).value;
    if op.RotateKey? {
      assert rs[1..] == [rs[1]] && [rs[1]][1..] == [];
      assert PutAll(s, rs) == PutAll(Put(s, rs[0]), [rs[1]]) == PutAll(Put(Put(s, rs[0]), rs[1]), []);
    } else {
      assert rs[1..] == [];
      assert PutAll(s, rs) == PutAll(Put(s, rs[0]), []);
    }
  }

  lemma ApplyKeepsInv(s: Store, op: Operation, hookFails: bool)
    requires Inv(s)
    ensures Inv(Apply(s, op, hookFails))
  {
    var plan := PlanOf(s, op, hookFails);
    if plan.Ok? {
      ApplyIsPut(s, op, hookFails);
      PlanShape(s, op, hookFails);
      match op {
        case CreateKey(_, _, _, _) => AddKeepsInv(s, plan.value[0]);
        case RotateKey(_, _, _, _, _) => RotateKeepsInv(s, plan.value[0], plan.value[1]);
        case RevokeKey(_, _, _) => UpdateKeepsInv(s, plan.value[0]);
      }
    }
  }

  lemma {:induction false} RunKeepsInv(s: Store, calls: seq<Call>)
    requires Inv(s)
    ensures Inv(Run(s, calls))
    decreases |calls|
  {
    if calls != [] {
      ApplyKeepsInv(s, calls[0].op, calls[0].hookFails);
      RunKeepsInv(Apply(s, calls[0].op, calls[0].hookFails), calls[1..]);
    }
  }

  /** The keys from a key along its links. */
  function Path(s: Store, k: string): (p: seq<string>)
    requires Inv(s) && k in s.records
    ensures p != [] && p[0] == k
    ensures forall i :: 0 <= i < |p| ==> p[i] in s.records
    ensures forall i :: 0 <= i < |p| - 1 ==> Links(s, p[i], p[i + 1])
    ensures s.records[p[|p| - 1]].replacementKeyId == None
    decreases |s.order| - IndexOf(s.order, k)
  {
    match s.records[k].replacementKeyId
    case None => [k]
    case Some(next) =>
      assert Links(s, k, next);
      [k] + Path(s, next)
  }

  lemma {:induction false} PathsGoForward(s: Store, k: string, x: string)
    requires Inv(s) && k in s.records && x in Path(s, k)
    ensures IndexOf(s.order, k) <= IndexOf(s.order, x)
    decreases |s.order| - IndexOf(s.order, k)
  {
    if x != k {
      var next := s.records[k].replacementKeyId.value;
      assert Links(s, k, next);
      PathsGoForward(s, next, x);
    }
  }

  ghost predicate NoRepeats(p: seq<string>) { forall i, j :: 0 <= i < j < |p| ==> p[i] != p[j] }

  /** Main result: following links from any key ends, at a key without a successor, and never meets a key twice. */
  lemma {:induction false} PathsAreSimple(s: Store, k: string)
    requires Inv(s) && k in s.records
    ensures NoRepeats(Path(s, k)) && s.records[Last(Path(s, k))].replacementKeyId == None
    decreases |s.order| - IndexOf(s.order, k)
  {
    if s.records[k].replacementKeyId.Some? {
      var next := s.records[k].replacementKeyId.value;
      assert Links(s, k, next);
      PathsAreSimple(s, next);
      if k in Path(s, next) { PathsGoForward(s, next, k); }
      NoRepeatsCons(k, Path(s, next));
    }
  }

  lemma NoRepeatsCons(k: string, p: seq<string>)
    requires NoRepeats(p) && k !in p
    ensures NoRepeats([k] + p)
  {
  }

  function Last(p: seq<string>): string
    requires p != []
  {
    p[|p| - 1]
  }

  /** No stored key links to this one: it starts its path. */
  ghost predicate Head(s: Store, k: string) { k in s.records && forall a :: !Links(s, a, k) }

  ghost predicate Chain(s: Store, p: seq<string>) { forall i :: 0 <= i < |p| - 1 ==> Links(s, p[i], p[i + 1]) }

  /** Chains that start where nothing links to meet only if they start at the same key. */
  lemma {:induction false} ChainsMeetFromTheStart(s: Store, p: seq<string>, q: seq<string>, i: nat, j: nat)
    requires Injective(s) && Chain(s, p) && Chain(s, q) && i < |p| && j < |q| && p[i] == q[j]
    requires forall a :: !Links(s, a, p[0]) && !Links(s, a, q[0])
    ensures p[0] == q[0]
    decreases i
  {
    assert i > 0 ==> Links(s, p[i - 1], p[i - 1 + 1]);
    assert j > 0 ==> Links(s, q[j - 1], q[j - 1 + 1]);
    if i > 0 && j > 0 { ChainsMeetFromTheStart(s, p, q, i - 1, j - 1); }
  }

  lemma LinkedKeyIsNext(s: Store, p: seq<string>, i: nat, k: string)
    requires Chain(s, p) && i < |p| && Links(s, p[i], k)
    requires Last(p) in s.records && s.records[Last(p)].replacementKeyId == None
    ensures i + 1 < |p| && p[i + 1] == k
  {
    assert i < |p| - 1 ==> Links(s, p[i], p[i + 1]);
  }

  lemma {:induction false} EveryKeyIsOnAPath(s: Store, k: string) returns (head: string, i: nat)
    requires Inv(s) && k in s.records
    ensures Head(s, head) && i < |Path(s, head)| && Path(s, head)[i] == k
    decreases IndexOf(s.order, k)
  {
    if a :| Links(s, a, k) {
      head, i := EveryKeyIsOnAPath(s, a);
      LinkedKeyIsNext(s, Path(s, head), i, k);
      i := i + 1;
    } else {
      head, i := k, 0;
    }
  }

  ghost predicate OnPath(s: Store, head: string, k: string)
    requires Inv(s)
  {
    Head(s, head) && k in Path(s, head)
  }

  /** Every key is on the path of some head. */
  ghost predicate PathsCover(s: Store)
    requires Inv(s)
  {
    forall k :: k in s.records ==> exists h :: OnPath(s, h, k)
  }

  /** No key is on the paths of two heads. */
  ghost predicate PathsAreDisjoint(s: Store)
    requires Inv(s)
  {
    forall g, h, k :: OnPath(s, g, k) && OnPath(s, h, k) ==> g == h
  }

  /** Only the last key of a path can be active. */
  ghost predicate OnlyLastIsActive(s: Store)
    requires Inv(s)
  {
    forall h, k :: OnPath(s, h, k) && k in s.records && s.records[k].status == Active ==> k == Last(Path(s, h))
  }

  lemma UnlinkedKeyIsLast(s: Store, p: seq<string>, k: string)
    requires Chain(s, p) && k in p && k in s.records && s.records[k].replacementKeyId == None
    ensures k == Last(p)
  {
    var i :| 0 <= i < |p| && p[i] == k;
    assert i < |p| - 1 ==> Links(s, p[i], p[i + 1]);
  }

  lemma PathsShareNoKey(s: Store, g: string, h: string, k: string)
    requires Inv(s) && OnPath(s, g, k) && OnPath(s, h, k)
    ensures g == h
  {
    var i :| 0 <= i < |Path(s, g)| && Path(s, g)[i] == k;
    var j :| 0 <= j < |Path(s, h)| && Path(s, h)[j] == k;
    ChainsMeetFromTheStart(s, Path(s, g), Path(s, h), i, j);
  }

  lemma InvGivesCover(s: Store)
    requires Inv(s)
    ensures PathsCover(s)
  {
    forall k | k in s.records ensures exists h :: OnPath(s, h, k) {
      var h, i := EveryKeyIsOnAPath(s, k);
      assert OnPath(s, h, k);
    }
  }

  lemma InvGivesDisjoint(s: Store)
    requires Inv(s)
    ensures PathsAreDisjoint(s)
  {
    forall g, h, k | OnPath(s, g, k) && OnPath(s, h, k) ensures g == h { PathsShareNoKey(s, g, h, k); }
  }

  lemma InvGivesActiveLast(s: Store)
    requires Inv(s)
    ensures OnlyLastIsActive(s)
  {
    forall h, k | OnPath(s, h, k) && k in s.records && s.records[k].status == Active ensures k == Last(Path(s, h)) {
      UnlinkedKeyIsLast(s, Path(s, h), k);
    }
  }

  /** Main result: after any run the rotation graph is a set of disjoint simple paths that covers the keys,
      and on each path at most the last key is active. */
  lemma KeysFormDisjointPaths(calls: seq<Call>)
    ensures var s := Run(EMPTY, calls); Inv(s) && PathsCover(s) && PathsAreDisjoint(s) && OnlyLastIsActive(s)
  {
    RunKeepsInv(EMPTY, calls);
    InvGivesCover(Run(EMPTY, calls));
    InvGivesDisjoint(Run(EMPTY, calls));
    InvGivesActiveLast(Run(EMPTY, calls));
  }

  // ----- the life of a key --------------------------------------------------

  function Rank(status: Status): nat { match status case Active => 0 case Rotated => 1 case Revoked => 2 }

  /** How a key may have developed: it is still there, with its material, and its status only moved on. */
  predicate Develops(a: KeyRecord, b: KeyRecord) {
    && SameMaterial(a, b)
    && Rank(a.status) <= Rank(b.status)
    && (a.replacementKeyId.Some? ==> b.replacementKeyId == a.replacementKeyId)
    && (a.status != Active ==> b.replacementKeyId == a.replacementKeyId)
  }

  ghost predicate StoreDevelops(s: Store, t: Store) {
    forall k :: k in s.records ==> k in t.records && Develops(s.records[k], t.records[k])
  }

  lemma ApplyDevelops(s: Store, op: Operation, hookFails: bool)
    requires Inv(s)
    ensures StoreDevelops(s, Apply(s, op, hookFails))
  {
    if PlanOf(s, op, hookFails).Ok? {
      ApplyIsPut(s, op, hookFails);
      PlanShape(s, op, hookFails);
    }
  }

  /** Main result: in every run keys never vanish, never change their material, and their status only moves
      from active to rotated to revoked. */
  lemma {:induction false} KeysOnlyDevelop(s: Store, calls: seq<Call>)
    requires Inv(s)
    ensures StoreDevelops(s, Run(s, calls))
    decreases |calls|
  {
    if calls != [] {
      var t := Apply(s, calls[0].op, calls[0].hookFails);
      ApplyKeepsInv(s, calls[0].op, calls[0].hookFails);
      ApplyDevelops(s, calls[0].op, calls[0].hookFails);
      KeysOnlyDevelop(t, calls[1..]);
    }
  }

  /** By whatever text with outer white space it is asked for, the key is not resolved by default and always on
      request. */
  ghost predicate ResolvedOnRequestOnly(t: Store, k: string, publicKeyPem: string) {
    forall keyId :: Trim(keyId) == k ==>
      Resolve(t, keyId, false, false) == None && Resolve(t, keyId, true, true) == Some(publicKeyPem)
  }

  /** Main result: a key that has left active is never again returned by a default `resolvePublicKey`. */
  lemma RetiredKeysStayUnresolved(before: seq<Call>, after: seq<Call>, k: string)
    requires var s := Run(EMPTY, before); k in s.records && s.records[k].status != Active
    ensures ResolvedOnRequestOnly(Run(Run(EMPTY, before), after), k, Run(EMPTY, before).records[k].publicKeyPem)
  {
    RunKeepsInv(EMPTY, before);
    KeysOnlyDevelop(Run(EMPTY, before), after);
    DevelopedKeysResolve(Run(EMPTY, before), Run(Run(EMPTY, before), after), k);
  }

  lemma DevelopedKeysResolve(s: Store, t: Store, k: string)
    requires StoreDevelops(s, t) && k in s.records && s.records[k].status != Active
    ensures ResolvedOnRequestOnly(t, k, s.records[k].publicKeyPem)
  {
    assert Develops(s.records[k], t.records[k]);
  }

  /** An operation that throws leaves the store unchanged, and one that succeeds changes it. */
  lemma ThrowsIffUnchanged(s: Store, op: Operation, hookFails: bool)
    requires Inv(s)
    ensures PlanOf(s, op, hookFails).Err? <==> Apply(s, op, hookFails) == s
  {
    if PlanOf(s, op, hookFails).Ok? {
      ApplyIsPut(s, op, hookFails);
      PlanShape(s, op, hookFails);
    }
  }

  /** A hook that throws is the last thing that can go wrong: it spoils exactly the operations that would
      have succeeded, and hides no other error. */
  lemma HookFailureIsLast(s: Store, op: Operation)
    ensures var without := PlanOf(s, op, false);
            PlanOf(s, op, true) == if without.Ok? then Err(LifecycleHookFailed) else without
  {
  }

  // ----- what the callers' inputs become ------------------------------------

  lemma IdMeans(value: string, id: string)
    ensures NonEmpty(value) == Some(id) <==> id != "" && SpaceAround(value, id)
  {
    TrimIffSpaceAround(value, id);
  }

  lemma ReasonMeans(reason: Option<string>, text: string)
    ensures NormalizeReason(reason) == Some(text) <==> reason.Some? && text != "" && SpaceAround(reason.value, text)
  {
    if reason.Some? { IdMeans(reason.value, text); }
  }

  lemma TimestampMeans(input: TimeInput, now: string)
    ensures input == Absent ==> NormalizeTimestamp(input, now) == Some(now)
    ensures forall iso :: input == Date(iso) ==> NormalizeTimestamp(input, now) == Some(iso)
    ensures NormalizeTimestamp(input, now) == None <==> input == NotADate
  {
  }

  ghost predicate EndsWith(s: string, end: string) { exists front :: s == front + end }

  lemma EnclosedIff(s: string, start: string, end: string)
    ensures IsEnclosed(s, start, end) <==> start <= s && EndsWith(s, end)
  {
    if |s| >= |end| { assert s == s[..|s| - |end|] + s[|s| - |end|..]; }
  }

  /** The text, trimmed, is enclosed by the two markers of a public key, as in section 13 of RFC 7468. */
  lemma PemMeans(value: string, pem: string)
    ensures NormalizePem(value) == Some(pem) <==>
      SpaceAround(value, pem) && "-----BEGIN PUBLIC KEY-----" <= pem && EndsWith(pem, "-----END PUBLIC KEY-----")
  {
    TrimIffSpaceAround(value, pem);
    EnclosedIff(pem, PEM_START, PEM_END);
  }

  /** Every entry is a text that is not blank. */
  ghost predicate GoodEntries(entries: map<string, Option<string>>) {
    forall k :: k in entries ==> entries[k].Some? && !AllSpace(entries[k].value)
  }

  /** Every entry but the one of that name is there with its text trimmed. */
  ghost predicate TrimmedEntries(entries: map<string, Option<string>>, m: Metadata, name: string) {
    && m.Keys == entries.Keys - {name}
    && forall k :: k in m ==> entries[k].Some? && SpaceAround(entries[k].value, m[k])
  }

  lemma BlankIffSpace(text: string)
    ensures Trim(text) == "" <==> AllSpace(text)
  {
    TrimIffSpaceAround(text, "");
    if AllSpace(text) { assert text == text + "" + ""; }
  }

  lemma AcceptedIffGood(entries: map<string, Option<string>>)
    ensures NormalizeMetadata(MetadataEntries(entries)) ==
      if GoodEntries(entries) then Ok(Some(TextsBut(entries, "__proto__"))) else Err(InvalidInput)
  {
    forall k | k in entries && entries[k].Some?
      ensures Trim(entries[k].value) != "" <==> !AllSpace(entries[k].value)
    {
      BlankIffSpace(entries[k].value);
    }
  }

  lemma TextsButKeys(entries: map<string, Option<string>>, name: string)
    ensures TextsBut(entries, name).Keys == entries.Keys - {name}
  {
  }

  lemma TextsButAt(entries: map<string, Option<string>>, name: string, k: string)
    requires k in TextsBut(entries, name) && entries[k].Some?
    ensures SpaceAround(entries[k].value, TextsBut(entries, name)[k])
  {
    TrimIffSpaceAround(entries[k].value, TextsBut(entries, name)[k]);
  }

  lemma EntriesAreTrimmed(entries: map<string, Option<string>>, name: string)
    requires forall k :: k in entries ==> entries[k].Some?
    ensures TrimmedEntries(entries, TextsBut(entries, name), name)
  {
    TextsButKeys(entries, name);
    var m := TextsBut(entries, name);
    forall k | k in m ensures k in entries && entries[k].Some? && SpaceAround(entries[k].value, m[k]) {
      TextsButAt(entries, name, k);
    }
  }

  /** What metadata become: nothing without metadata, an error for what is no record or has an entry that is no text or
      blank, and else the trimmed entries. */
  lemma MetadataMeans(entries: map<string, Option<string>>)
    ensures NormalizeMetadata(NoMetadata) == Ok(None) && NormalizeMetadata(NotARecord) == Err(InvalidInput)
    ensures var result := NormalizeMetadata(MetadataEntries(entries));
      if GoodEntries(entries)
      then result.Ok? && result.value.Some? && TrimmedEntries(entries, result.value.value, "__proto__")
      else result == Err(InvalidInput)
  {
    AcceptedIffGood(entries);
    if GoodEntries(entries) { EntriesAreTrimmed(entries, "__proto__"); }
  }

  // ----- what a call does ---------------------------------------------------

  /** The tests of each operation, in order. */
  ghost function ChecksOf(s: Store, op: Operation, hookFails: bool): seq<Check<ErrorCode>> {
    match op
    case CreateKey(id, pem, at, metadata) =>
      [Check(InvalidInput, id.Some?), Check(KeyAlreadyExists, id.Some? ==> id.value !in s.records),
       Check(InvalidInput, metadata.Ok?), Check(InvalidPublicKey, pem.Some?), Check(InvalidInput, at.Some?),
       Check(LifecycleHookFailed, !hookFails)]
    case RotateKey(id, next, pem, at, metadata) =>
      [Check(InvalidInput, id.Some?), Check(KeyNotFound, id.Some? ==> id.value in s.records),
       Check(KeyNotActive, IsStored(s, id) ==> s.records[id.value].status == Active),
       Check(InvalidInput, next.Some?), Check(InvalidInput, next != id),
       Check(KeyAlreadyExists, !IsStored(s, next)), Check(InvalidInput, at.Some?), Check(InvalidInput, metadata.Ok?),
       Check(InvalidPublicKey, pem.Some?), Check(LifecycleHookFailed, !hookFails)]
    case RevokeKey(id, at, _) =>
      [Check(InvalidInput, id.Some?), Check(KeyNotFound, id.Some? ==> id.value in s.records),
       Check(KeyAlreadyRevoked, IsStored(s, id) ==> s.records[id.value].status != Revoked),
       Check(InvalidInput, at.Some?), Check(LifecycleHookFailed, !hookFails)]
  }

  predicate IsStored(s: Store, id: Option<string>) { id.Some? && id.value in s.records }

  /** What a plan has to do with the tests of its operation. */
  ghost predicate Obeys(checks: seq<Check<ErrorCode>>, plan: Plan) {
    if plan.Ok? then AllPassed(checks) else FailsFirst(checks, plan.error)
  }

  lemma CreateObeys(s: Store, op: Operation, hookFails: bool)
    requires op.CreateKey?
    ensures Obeys(ChecksOf(s, op, hookFails), PlanOf(s, op, hookFails))
  {
    var checks := ChecksOf(s, op, hookFails);
    if !checks[0].passed { FailsAt(checks, 0); }
    else if !checks[1].passed { FailsAt(checks, 1); }
    else if !checks[2].passed { FailsAt(checks, 2); }
    else if !checks[3].passed { FailsAt(checks, 3); }
    else if !checks[4].passed { FailsAt(checks, 4); }
    else if !checks[5].passed { FailsAt(checks, 5); }
  }

  lemma RotateObeys(s: Store, op: Operation, hookFails: bool)
    requires op.RotateKey?
    ensures Obeys(ChecksOf(s, op, hookFails), PlanOf(s, op, hookFails))
  {
    var checks := ChecksOf(s, op, hookFails);
    if !checks[0].passed { FailsAt(checks, 0); }
    else if !checks[1].passed { FailsAt(checks, 1); }
    else if !checks[2].passed { FailsAt(checks, 2); }
    else if !checks[3].passed { FailsAt(checks, 3); }
    else if !checks[4].passed { FailsAt(checks, 4); }
    else if !checks[5].passed { FailsAt(checks, 5); }
    else if !checks[6].passed { FailsAt(checks, 6); }
    else if !checks[7].passed { FailsAt(checks, 7); }
    else if !checks[8].passed { FailsAt(checks, 8); }
    else if !checks[9].passed { FailsAt(checks, 9); }
  }

  lemma RevokeObeys(s: Store, op: Operation, hookFails: bool)
    requires op.RevokeKey?
    ensures Obeys(ChecksOf(s, op, hookFails), PlanOf(s, op, hookFails))
  {
    var checks := ChecksOf(s, op, hookFails);
    if !checks[0].passed { FailsAt(checks, 0); }
    else if !checks[1].passed { FailsAt(checks, 1); }
    else if !checks[2].passed { FailsAt(checks, 2); }
    else if !checks[3].passed { FailsAt(checks, 3); }
    else if !checks[4].passed { FailsAt(checks, 4); }
  }

  /** Main result: an operation throws the error of its first test that fails, and succeeds if all are passed. */
  lemma ErrorsMean(s: Store, op: Operation, hookFails: bool)
    ensures var plan := PlanOf(s, op, hookFails);
      if plan.Ok? then AllPassed(ChecksOf(s, op, hookFails)) else FailsFirst(ChecksOf(s, op, hookFails), plan.error)
  {
    match op {
      case CreateKey(_, _, _, _) => CreateObeys(s, op, hookFails);
      case RotateKey(_, _, _, _, _) => RotateObeys(s, op, hookFails);
      case RevokeKey(_, _, _) => RevokeObeys(s, op, hookFails);
    }
  }

  /** A key as it is stored first. */
  predicate IsNew(r: KeyRecord, id: string, pem: string, at: string, metadata: Option<Metadata>) {
    && r.keyId == id && r.publicKeyPem == pem && r.createdAt == at && r.metadata == metadata && r.status == Active
    && r.rotatedAt == None && r.revokedAt == None && r.replacementKeyId == None && r.revocationReason == None
  }

  /** The keys outside the set are as they were, and those in it are stored. */
  ghost predicate OnlyStores(s: Store, t: Store, ids: set<string>) {
    && t.records.Keys == s.records.Keys + ids
    && forall k :: k in s.records && k !in ids ==> t.records[k] == s.records[k]
  }

  lemma CreateMeans(s: Store, id: string, pem: string, at: string, metadata: Option<Metadata>)
    requires id !in s.records
    ensures var t := Apply(s, CreateKey(Some(id), Some(pem), Some(at), Ok(metadata)), false);
      OnlyStores(s, t, {id}) && IsNew(t.records[id], id, pem, at, metadata)
  {
    PutAllOne(s, NewRecord(id, pem, at, metadata));
  }

  lemma RotateMeans(s: Store, id: string, next: string, pem: string, at: string, metadata: Option<Metadata>)
    requires Inv(s) && id in s.records && s.records[id].status == Active && next !in s.records
    ensures var t := Apply(s, RotateKey(Some(id), Some(next), Some(pem), Some(at), Ok(metadata)), false);
      && OnlyStores(s, t, {id, next})
      && IsNew(t.records[next], next, pem, at, metadata)
      && var r, r' := s.records[id], t.records[id];
         && SameMaterial(r, r') && r'.status == Rotated && r'.rotatedAt == Some(at) && r'.replacementKeyId == Some(next)
         && r'.revokedAt == r.revokedAt && r'.revocationReason == r.revocationReason
  {
    var op := RotateKey(Some(id), Some(next), Some(pem), Some(at), Ok(metadata));
    ApplyIsPut(s, op, false);
    PlanShape(s, op, false);
  }

  lemma RevokeMeans(s: Store, id: string, at: string, reason: Option<string>)
    requires Inv(s) && id in s.records && s.records[id].status != Revoked
    ensures var t := Apply(s, RevokeKey(Some(id), Some(at), reason), false);
      && OnlyStores(s, t, {id})
      && var r, r' := s.records[id], t.records[id];
         && SameMaterial(r, r') && r'.status == Revoked && r'.revokedAt == Some(at)
         && r'.rotatedAt == r.rotatedAt && r'.replacementKeyId == r.replacementKeyId
         && r'.revocationReason == if reason != None then reason else r.revocationReason
  {
    var op := RevokeKey(Some(id), Some(at), reason);
    ApplyIsPut(s, op, false);
  }

  /** The operation asks for a key of that id and material to be stored. */
  predicate AsksFor(op: Operation, id: string, pem: string, at: string, metadata: Option<Metadata>) {
    match op
    case CreateKey(i, p, a, m) => i == Some(id) && p == Some(pem) && a == Some(at) && m == Ok(metadata)
    case RotateKey(_, i, p, a, m) => i == Some(id) && p == Some(pem) && a == Some(at) && m == Ok(metadata)
    case RevokeKey(_, _, _) => false
  }

  /** The key is stored with that material, and while it is active it resolves to its text by default. */
  ghost predicate IsTheCallers(t: Store, id: string, pem: string, at: string, metadata: Option<Metadata>) {
    && id in t.records
    && var r := t.records[id];
       && r.keyId == id && r.publicKeyPem == pem && r.createdAt == at && r.metadata == metadata
       && forall keyId :: SpaceAround(keyId, id) ==>
            (Resolve(t, keyId, false, false) == Some(pem) <==> r.status == Active)
  }

  lemma StoredAsAsked(s: Store, op: Operation, id: string, pem: string, at: string, metadata: Option<Metadata>)
    requires Inv(s) && AsksFor(op, id, pem, at, metadata) && PlanOf(s, op, false).Ok?
    ensures var t := Apply(s, op, false); id in t.records && IsNew(t.records[id], id, pem, at, metadata)
  {
    match op {
      case CreateKey(_, _, _, _) => CreateMeans(s, id, pem, at, metadata);
      case RotateKey(i, _, _, _, _) => RotateMeans(s, i.value, id, pem, at, metadata);
    }
  }

  lemma ResolvesIffActive(t: Store, id: string)
    requires id in t.records
    ensures forall keyId :: SpaceAround(keyId, id) ==>
      (Resolve(t, keyId, false, false) == Some(t.records[id].publicKeyPem) <==> t.records[id].status == Active)
  {
    forall keyId | SpaceAround(keyId, id) ensures Trim(keyId) == id { TrimIffSpaceAround(keyId, id); }
  }

  /** Main result: a key that an operation stored keeps exactly the material its caller gave, in every later run, and
      resolves by default to the caller's key text as long as it is active. */
  lemma StoredKeyIsTheCallers(before: seq<Call>, op: Operation, after: seq<Call>, id: string, pem: string, at: string,
                              metadata: Option<Metadata>)
    requires AsksFor(op, id, pem, at, metadata) && PlanOf(Run(EMPTY, before), op, false).Ok?
    ensures var s := Run(EMPTY, before);
      var t := Apply(s, op, false);
      && IsTheCallers(Run(t, after), id, pem, at, metadata)
      && id in t.records && IsNew(t.records[id], id, pem, at, metadata)
  {
    var s := Run(EMPTY, before);
    var t := Apply(s, op, false);
    RunKeepsInv(EMPTY, before);
    ApplyKeepsInv(s, op, false);
    StoredAsAsked(s, op, id, pem, at, metadata);
    KeysOnlyDevelop(t, after);
    assert Develops(t.records[id], Run(t, after).records[id]);
    ResolvesIffActive(Run(t, after), id);
  }

  predicate Names(op: Operation, id: string) {
    match op
    case CreateKey(i, _, _, _) => i == Some(id)
    case RotateKey(_, i, _, _, _) => i == Some(id)
    case RevokeKey(_, _, _) => false
  }

  lemma StoresOnlyNamed(s: Store, op: Operation, hookFails: bool, k: string)
    requires Inv(s) && k in Apply(s, op, hookFails).records && k !in s.records
    ensures Names(op, k)
  {
    ApplyIsPut(s, op, hookFails);
    PlanShape(s, op, hookFails);
  }

  /** Main result: every stored key was asked for by some call of the run. */
  lemma {:induction false} KeysComeFromCalls(s: Store, calls: seq<Call>, k: string)
    requires Inv(s) && k in Run(s, calls).records
    ensures k in s.records || exists i :: 0 <= i < |calls| && Names(calls[i].op, k)
    decreases |calls|
  {
    if calls != [] {
      var t := Apply(s, calls[0].op, calls[0].hookFails);
      ApplyKeepsInv(s, calls[0].op, calls[0].hookFails);
      KeysComeFromCalls(t, calls[1..], k);
      if k in t.records && k !in s.records { StoresOnlyNamed(s, calls[0].op, calls[0].hookFails, k); }
      assert forall i :: 0 <= i < |calls[1..]| ==> calls[1..][i] == calls[i + 1];
    }
  }

  /** Who asks gets the text of the key of that id, trimmed, if its status is among those asked for. */
  lemma ResolveMeans(s: Store, keyId: string, k: string, includeRotated: bool, includeRevoked: bool)
    requires SpaceAround(keyId, k)
    ensures var status := if k in s.records then Some(s.records[k].status) else None;
      Resolve(s, keyId, includeRotated, includeRevoked) ==
        if status in {Some(Active)} + (if includeRotated then {Some(Rotated)} else {})
                                    + (if includeRevoked then {Some(Status.Revoked)} else {})
        then Some(s.records[k].publicKeyPem) else None
  {
    TrimIffSpaceAround(keyId, k);
  }

  // ----- the manager object -------------------------------------------------

  /** What `createKey` and `revokeKey` return for a plan. */
  function One(plan: Plan): Result<KeyRecord, ErrorCode> {
    match plan
    case Ok(rs) => if |rs| == 1 then Ok(rs[0]) else Err(InvalidInput)
    case Err(code) => Err(code)
  }

  /** What `rotateKey` returns for a plan: the previous record and the current one. */
  function Two(plan: Plan): Result<(KeyRecord, KeyRecord), ErrorCode> {
    match plan
    case Ok(rs) => if |rs| == 2 then Ok((rs[0], rs[1])) else Err(InvalidInput)
    case Err(code) => Err(code)
  }

  /** What is returned is what is stored: the record of the operation's key, and for a rotation first the old key's
      and then the successor's. */
  lemma ReturnsTheStored(s: Store, op: Operation)
    requires Inv(s)
    ensures One(PlanOf(s, op, false)).Ok? && !op.RotateKey? ==>
      var r := One(PlanOf(s, op, false)).value;
      Some(r.keyId) == (if op.CreateKey? then op.keyId else op.revokedId)
      && IsStored(Apply(s, op, false), Some(r.keyId)) && Apply(s, op, false).records[r.keyId] == r
    ensures Two(PlanOf(s, op, false)).Ok? && op.RotateKey? ==>
      var (old', new') := Two(PlanOf(s, op, false)).value;
      var t := Apply(s, op, false);
      Some(old'.keyId) == op.rotatedId && Some(new'.keyId) == op.nextKeyId
      && IsStored(t, op.rotatedId) && IsStored(t, op.nextKeyId)
      && t.records[old'.keyId] == old' && t.records[new'.keyId] == new'
  {
    if PlanOf(s, op, false).Ok? {
      ApplyIsPut(s, op, false);
      PlanShape(s, op, false);
    }
  }

  class KeyManager {
    var keys: map<string, KeyRecord>
    var order: seq<string>

    function State(): Store
      reads this
    {
      Store(order, keys)
    }

    constructor ()
      ensures State() == EMPTY
    {
      keys, order := map[], [];
    }

    method Set(record: KeyRecord)
      modifies this
      ensures State() == Put(old(State()), record)
    {
      if record.keyId !in keys { order := order + [record.keyId]; }
      keys := keys[record.keyId := record];
    }

    method SetBoth(first: KeyRecord, second: KeyRecord)
      modifies this
      ensures State() == PutAll(old(State()), [first, second])
    {
      PutAllTwo(State(), first, second);
      Set(first);
      Set(second);
    }

    method Create(id: string, publicKeyPem: string, createdAt: TimeInput, metadataInput: MetadataInput,
                  now: string, hookFails: bool) returns (r: Result<KeyRecord, ErrorCode>)
      modifies this
      ensures var op := CreateKey(NonEmpty(id), NormalizePem(publicKeyPem), NormalizeTimestamp(createdAt, now),
                         NormalizeMetadata(metadataInput));
        State() == Apply(old(State()), op, hookFails) && r == One(PlanOf(old(State()), op, hookFails))
    {
      var keyId := NonEmpty(id);
      if keyId.None? { return Err(InvalidInput); }
      if keyId.value in keys { return Err(KeyAlreadyExists); }
      var metadata := NormalizeMetadata(metadataInput);
      if metadata.Err? { return Err(metadata.error); }
      var pem := NormalizePem(publicKeyPem);
      if pem.None? { return Err(InvalidPublicKey); }
      var at := NormalizeTimestamp(createdAt, now);
      if at.None? { return Err(InvalidInput); }
      var record := NewRecord(keyId.value, pem.value, at.value, metadata.value);
      if hookFails { return Err(LifecycleHookFailed); }
      PutAllOne(State(), record);
      Set(record);
      r := Ok(record);
    }

    method Rotate(id: string, nextId: string, nextPublicKeyPem: string, rotatedAt: TimeInput,
                  metadataInput: MetadataInput, now: string, hookFails: bool)
      returns (r: Result<(KeyRecord, KeyRecord), ErrorCode>)
      modifies this
      ensures var op := RotateKey(NonEmpty(id), NonEmpty(nextId), NormalizePem(nextPublicKeyPem),
                         NormalizeTimestamp(rotatedAt, now), NormalizeMetadata(metadataInput));
        State() == Apply(old(State()), op, hookFails) && r == Two(PlanOf(old(State()), op, hookFails))
    {
      r := RotateNormalized(NonEmpty(id), NonEmpty(nextId), NormalizePem(nextPublicKeyPem),
                            NormalizeTimestamp(rotatedAt, now), NormalizeMetadata(metadataInput), hookFails);
    }

    /** The checks and writes of `rotateKey`, in its order, on inputs that were normalised up front. */
    method RotateNormalized(keyId: Option<string>, nextKeyId: Option<string>, pem: Option<string>, at: Option<string>,
                            metadata: Result<Option<Metadata>, ErrorCode>, hookFails: bool)
      returns (r: Result<(KeyRecord, KeyRecord), ErrorCode>)
      modifies this
      ensures var op := RotateKey(keyId, nextKeyId, pem, at, metadata);
        State() == Apply(old(State()), op, hookFails) && r == Two(PlanOf(old(State()), op, hookFails))
    {
      if keyId.None? { return Err(InvalidInput); }
      if keyId.value !in keys { return Err(KeyNotFound); }
      var current := keys[keyId.value];
      if current.status != Active { return Err(KeyNotActive); }
      if nextKeyId.None? || nextKeyId == keyId { return Err(InvalidInput); }
      if nextKeyId.value in keys { return Err(KeyAlreadyExists); }
      if at.None? { return Err(InvalidInput); }
      var rotated := current.(status := Rotated, rotatedAt := at, replacementKeyId := nextKeyId);
      if metadata.Err? { return Err(InvalidInput); }
      if pem.None? { return Err(InvalidPublicKey); }
      var next := NewRecord(nextKeyId.value, pem.value, at.value, metadata.value);
      if hookFails { return Err(LifecycleHookFailed); }
      SetBoth(rotated, next);
      r := Ok((rotated, next));
    }

    method Revoke(id: string, revokedAt: TimeInput, reason: Option<string>, now: string, hookFails: bool)
      returns (r: Result<KeyRecord, ErrorCode>)
      modifies this
      ensures var op := RevokeKey(NonEmpty(id), NormalizeTimestamp(revokedAt, now), NormalizeReason(reason));
        State() == Apply(old(State()), op, hookFails) && r == One(PlanOf(old(State()), op, hookFails))
    {
      var keyId := NonEmpty(id);
      if keyId.None? { return Err(InvalidInput); }
      if keyId.value !in keys { return Err(KeyNotFound); }
      var current := keys[keyId.value];
      if current.status == Revoked { return Err(KeyAlreadyRevoked); }
      var at := NormalizeTimestamp(revokedAt, now);
      if at.None? { return Err(InvalidInput); }
      var revoked := current.(status := Revoked, revokedAt := at);
      var why := NormalizeReason(reason);
      if why.Some? { revoked := revoked.(revocationReason := why); }
      if hookFails { return Err(LifecycleHookFailed); }
      PutAllOne(State(), revoked);
      Set(revoked);
      r := Ok(revoked);
    }

    method ResolvePublicKey(id: string, includeRotated: bool, includeRevoked: bool)
      returns (r: Result<Option<string>, ErrorCode>)
      ensures r == if NonEmpty(id).None? then Err(InvalidInput)
                   else Ok(Resolve(State(), id, includeRotated, includeRevoked))
    {
      var keyId := NonEmpty(id);
      if keyId.None? { return Err(InvalidInput); }
      if keyId.value !in keys { return Ok(None); }
      var record := keys[keyId.value];
      if record.status == Active { return Ok(Some(record.publicKeyPem)); }
      if record.status == Rotated && includeRotated { return Ok(Some(record.publicKeyPem)); }
      if record.status == Revoked && includeRevoked { return Ok(Some(record.publicKeyPem)); }
      r := Ok(None);
    }
  }

  lemma PutAllOne(s: Store, r: KeyRecord)
    ensures PutAll(s, [r]) == Put(s, r)
  {
    assert [r][1..] == [];
  }

  lemma PutAllTwo(s: Store, a: KeyRecord, b: KeyRecord)
    ensures PutAll(s, [a, b]) == Put(Put(s, a), b)
  {
    assert [a, b][1..] == [b];
    PutAllOne(Put(s, a), b);
  }
}
