/** Block numbers as the decimal text that travels between the canisters. */
module Decimal {

  function Digit(n: nat): (c: char)
    requires n < 10
    ensures '0' <= c <= '9' && c as int - '0' as int == n
  {
    '0' + n as char
  }

  function Show(n: nat): (s: string)
    ensures s != [] && forall i | 0 <= i < |s| :: '0' <= s[i] <= '9'
  {
    if n < 10 then [Digit(n)] else Show(n / 10) + [Digit(n % 10)]
  }

  /** `parse`; other characters, on which the source traps, read as zero. */
  function Read(s: string): nat {
    if s == [] then 0 else
    var c := s[|s| - 1];
    10 * Read(s[..|s| - 1]) + (if '0' <= c <= '9' then c as int - '0' as int else 0)
  }

  lemma {:induction false} ReadShow(n: nat)
    ensures Read(Show(n)) == n
  {
    if n >= 10 {
      ReadShow(n / 10);
      assert Show(n)[..|Show(n)| - 1] == Show(n / 10);
    } else {
      assert Show(n)[..0] == [];
    }
  }

  lemma ShowInjective(m: nat, n: nat)
    requires Show(m) == Show(n)
    ensures m == n
  {
    ReadShow(m);
    ReadShow(n);
  }

  function Power10(k: nat): nat {
    if k == 0 then 1 else 10 * Power10(k - 1)
  }

  lemma {:induction false} ShowLength(n: nat, k: nat)
    requires n < Power10(k) && k >= 1
    ensures |Show(n)| <= k
    decreases k
  {
    if n >= 10 {
      ShowLength(n / 10, k - 1);
    }
  }
}

/** The frozen payload and its wire form (crates/canister-common/src/lib.rs). */
module Icrc {
  import opened Wrappers
  import opened Numbers
  import opened Canonical
  import opened Types

  datatype FrozenTransfer = FrozenTransfer(proposal: TransferProposal, memo: Digest, createdAt: U64)

  function FrozenItems(f: FrozenTransfer): seq<Item> {
    [Id(ProposalDigest(f.proposal)), Id(f.memo), Num64(f.createdAt)]
  }

  function FrozenDigest(f: FrozenTransfer): Digest {
    Seal("ic-laya/frozen-transfer/v1", FrozenItems(f))
  }

  lemma FrozenDigestInjective(f: FrozenTransfer, g: FrozenTransfer)
    requires FrozenDigest(f) == FrozenDigest(g)
    ensures f == g
  {
    hide Seal, ProposalDigest;
    var x, y := FrozenItems(f), FrozenItems(g);
    SealInjective("ic-laya/frozen-transfer/v1", x, y);
    assert x[0] == y[0] && x[1] == y[1] && x[2] == y[2];
    ProposalDigestInjective(f.proposal, g.proposal);
  }

  /** A memo of 32 bytes holds a digest; any other length is only known by its length. */
  datatype Memo = Word(digest: Digest) | Odd(length: nat)
  datatype IcrcAccount = IcrcAccount(owner: Principal, subaccount: Option<seq<U8>>)
  datatype TransferArg = TransferArg(
    fromSubaccount: Option<seq<U8>>, to: IcrcAccount, amount: nat, fee: Option<nat>,
    memo: Option<Memo>, createdAt: Option<U64>)

  function ToIcrc(f: FrozenTransfer): TransferArg {
    TransferArg(
      Some(f.proposal.fromSubaccount), IcrcAccount(f.proposal.to.owner, Some(f.proposal.to.subaccount)),
      f.proposal.amount, Some(f.proposal.fee), Some(Word(f.memo)), Some(f.createdAt))
  }

  function Sub(v: Option<seq<U8>>): Fallible<Bytes32> {
    match v
    case None => Ok(seq(32, _ => 0))
    case Some(x) => if |x| == 32 then Ok(x) else Err(Invalid("subaccount length"))
  }

  function NatU128(n: nat): Fallible<U128> {
    if n < TWO_128 then Ok(n) else Err(Invalid("Nat out of u128 range"))
  }

  function FromIcrc(a: TransferArg, ledger: Principal): Fallible<FrozenTransfer> {
    var from :- Sub(a.fromSubaccount);
    var to :- Sub(a.to.subaccount);
    var amount :- NatU128(a.amount);
    if a.fee.None? then Err(Invalid("explicit fee required")) else
    var fee :- NatU128(a.fee.value);
    var proposal := TransferProposal(ledger, from, Account(a.to.owner, to), amount, fee);
    var _ :- proposal.Validate();
    if a.memo.None? then Err(Invalid("memo required"))
    else if a.memo.value.Odd? then Err(Invalid("memo length"))
    else if a.createdAt.None? then Err(Invalid("timestamp required"))
    else Ok(FrozenTransfer(proposal, a.memo.value.digest, a.createdAt.value))
  }

  /**
   Both canisters see the same frozen payload: the wire form of `f` is read back by its own
   ledger as `f`, unless the proposal is one no transfer may carry.
   */
  lemma WireRoundTrip(f: FrozenTransfer)
    ensures FromIcrc(ToIcrc(f), f.proposal.ledger)
         == if f.proposal.Validate().Ok? then Ok(f) else Err(f.proposal.Validate().error)
  {
  }

  /** What any ledger reads from that wire form differs from `f` at most in naming itself. */
  lemma WireReadsSelf(f: FrozenTransfer, ledger: Principal)
    requires FromIcrc(ToIcrc(f), ledger).Ok?
    ensures FromIcrc(ToIcrc(f), ledger).value == f.(proposal := f.proposal.(ledger := ledger))
  {
  }
}

/** The transfer test double (canisters/mock-ledger/src/lib.rs). */
module MockLedger {
  import opened Wrappers
  import opened Numbers
  import opened Canonical
  import opened Types
  import opened Icrc
  import Decimal

  const DEDUP_WINDOW_NS: nat := 60_000_000_000
  const INITIAL_BALANCE: nat := 1_000_000_000_000
  const FEE: nat := 10

  datatype Fault = NoFault | BadFeeFault | TooOldFault | CommitThenCallbackTrap
  datatype Lookup = Lookup(frozenHash: Digest, blockIndex: string)
  datatype TransferError =
    | BadFee(expected: nat) | InsufficientFunds(balance: nat) | TooOld | CreatedInFuture(ledgerTime: U64)
    | TemporarilyUnavailable | Duplicate(of: nat) | GenericError(code: nat)

  /** What the caller can learn; `Silent` is a trap after the commit. */
  datatype Reply = Landed(index: nat) | Refused(error: TransferError) | Silent

  /** A committed transfer. The list of them is history: the source keeps only `next` and `records`. */
  datatype Block = Block(caller: Principal, transfer: FrozenTransfer)
  type Key = (Principal, Digest)

  datatype Ledger = Ledger(
    self: Principal, owner: Principal, fault: Fault, next: nat,
    records: map<Key, Lookup>, balances: map<Principal, U128>, blocks: seq<Block>)

  function Genesis(self: Principal, owner: Principal): Ledger {
    Ledger(self, owner, NoFault, 0, map[], map[], [])
  }

  function Balance(l: Ledger, caller: Principal): nat {
    if caller in l.balances then l.balances[caller] else INITIAL_BALANCE
  }

  /** Age in nanoseconds, saturating at zero. */
  function Age(now: U64, created: U64): nat {
    if now < created then 0 else now - created
  }

  /** The checks between deduplication and commit, in the source's order. */
  function Refusal(l: Ledger, caller: Principal, f: FrozenTransfer, now: U64): Option<TransferError> {
    if l.fault == BadFeeFault then Some(BadFee(FEE))
    else if l.fault == TooOldFault || Age(now, f.createdAt) > DEDUP_WINDOW_NS then Some(TooOld)
    else if f.createdAt > (if now + 1_000_000_000 < TWO_64 then now + 1_000_000_000 else TWO_64 - 1) then
      Some(CreatedInFuture(now))
    else if f.proposal.fee != FEE then Some(BadFee(FEE))
    else if |l.records| >= 2048 || (caller !in l.balances && |l.balances| >= 64) then Some(TemporarilyUnavailable)
    else if f.proposal.Charge().Err? || f.proposal.Charge().value > Balance(l, caller) then
      Some(InsufficientFunds(Balance(l, caller)))
    else None
  }

  function Commit(l: Ledger, caller: Principal, f: FrozenTransfer): Ledger
    requires f.proposal.Charge().Ok? && f.proposal.Charge().value <= Balance(l, caller)
  {
    var key := (caller, FrozenDigest(f));
    l.(next := l.next + 1,
       balances := l.balances[caller := Balance(l, caller) - f.proposal.Charge().value],
       records := l.records[key := Lookup(FrozenDigest(f), Decimal.Show(l.next))],
       blocks := l.blocks + [Block(caller, f)])
  }

  /** The body of `mutate`: deduplicate, check, commit. */
  function Apply(l: Ledger, caller: Principal, f: FrozenTransfer, now: U64): (Ledger, Reply) {
    var key := (caller, FrozenDigest(f));
    if key in l.records then (l, Refused(Duplicate(Decimal.Read(l.records[key].blockIndex)))) else
    match Refusal(l, caller, f, now)
    case Some(e) => (l, Refused(e))
    case None => (Commit(l, caller, f), if l.fault == CommitThenCallbackTrap then Silent else Landed(l.next))
  }

  function Transfer(l: Ledger, caller: Principal, arg: TransferArg, now: U64): (Ledger, Reply) {
    if caller == ANONYMOUS then (l, Refused(GenericError(1))) else
    match FromIcrc(arg, l.self)
    case Err(_) => (l, Refused(GenericError(2)))
    case Ok(f) => Apply(l, caller, f, now)
  }

  function Find(l: Ledger, caller: Principal, arg: TransferArg): Option<Lookup> {
    match FromIcrc(arg, l.self)
    case Err(_) => None
    case Ok(f) =>
      var key := (caller, FrozenDigest(f));
      if key in l.records then Some(l.records[key]) else None
  }

  function SetFault(l: Ledger, caller: Principal, fault: Fault): (Ledger, Fallible<()>) {
    if caller != l.owner then (l, Err(Unauthorized)) else (l.(fault := fault), Ok(()))
  }

  // ----- what every ledger state satisfies --------------------------------------------------

  function KeyOf(b: Block): Key {
    (b.caller, FrozenDigest(b.transfer))
  }

  /** Total charged to `caller` by the first `n` blocks. */
  function Charged(blocks: seq<Block>, caller: Principal): nat {
    if blocks == [] then 0 else
    var b := blocks[|blocks| - 1];
    Charged(blocks[..|blocks| - 1], caller)
    + if b.caller == caller then b.transfer.proposal.amount + b.transfer.proposal.fee else 0
  }

  /** Every block is filed under its own key and number. */
  ghost predicate Filed(l: Ledger) {
    forall i | 0 <= i < |l.blocks| ::
      && KeyOf(l.blocks[i]) in l.records
      && l.records[KeyOf(l.blocks[i])] == Lookup(KeyOf(l.blocks[i]).1, Decimal.Show(i))
      && l.blocks[i].transfer.proposal.ledger == l.self
  }

  ghost predicate Backed(l: Ledger) {
    forall k | k in l.records :: exists i | 0 <= i < |l.blocks| :: KeyOf(l.blocks[i]) == k
  }

  ghost predicate Conserved(l: Ledger) {
    forall c :: Charged(l.blocks, c) <= INITIAL_BALANCE && Balance(l, c) == INITIAL_BALANCE - Charged(l.blocks, c)
  }

  ghost predicate LedgerOk(l: Ledger) {
    l.next == |l.blocks| == |l.records| <= 2048 && Filed(l) && Backed(l) && Conserved(l)
  }

  lemma GenesisOk(self: Principal, owner: Principal)
    ensures LedgerOk(Genesis(self, owner))
  {
  }

  /** Deduplication: no payload of one caller is committed twice. */
  lemma CommittedOnce(l: Ledger, i: nat, j: nat)
    requires Filed(l) && i < |l.blocks| && j < |l.blocks| && l.blocks[i] == l.blocks[j]
    ensures i == j
  {
    hide FrozenDigest;
    Decimal.ShowInjective(i, j);
  }

  lemma CommitFiled(l: Ledger, caller: Principal, f: FrozenTransfer)
    requires f.proposal.Charge().Ok? && f.proposal.Charge().value <= Balance(l, caller)
    requires l.next == |l.blocks| && Filed(l) && Backed(l)
    requires (caller, FrozenDigest(f)) !in l.records && f.proposal.ledger == l.self
    ensures Filed(Commit(l, caller, f)) && Backed(Commit(l, caller, f))
  {
    hide FrozenDigest;
    var m := Commit(l, caller, f);
    assert m.blocks[|l.blocks|] == Block(caller, f);
    forall i | 0 <= i < |m.blocks|
      ensures KeyOf(m.blocks[i]) in m.records
      ensures m.records[KeyOf(m.blocks[i])] == Lookup(KeyOf(m.blocks[i]).1, Decimal.Show(i))
      ensures m.blocks[i].transfer.proposal.ledger == l.self
    {
      if i < |l.blocks| {
        assert m.blocks[i] == l.blocks[i];
      }
    }
    forall k | k in m.records ensures exists i | 0 <= i < |m.blocks| :: KeyOf(m.blocks[i]) == k {
      if k in l.records {
        var i :| 0 <= i < |l.blocks| && KeyOf(l.blocks[i]) == k;
        assert KeyOf(m.blocks[i]) == k;
      } else {
        assert KeyOf(m.blocks[|l.blocks|]) == k;
      }
    }
  }

  lemma CommitConserved(l: Ledger, caller: Principal, f: FrozenTransfer)
    requires f.proposal.Charge().Ok? && f.proposal.Charge().value <= Balance(l, caller) && Conserved(l)
    ensures Conserved(Commit(l, caller, f))
  {
    hide FrozenDigest;
    var m := Commit(l, caller, f);
    assert m.blocks[..|l.blocks|] == l.blocks && m.blocks[|l.blocks|] == Block(caller, f);
    forall c ensures Charged(m.blocks, c) <= INITIAL_BALANCE && Balance(m, c) == INITIAL_BALANCE - Charged(m.blocks, c) {
      assert Charged(l.blocks, c) <= INITIAL_BALANCE && Balance(l, c) == INITIAL_BALANCE - Charged(l.blocks, c);
    }
  }

  lemma ApplyKeeps(l: Ledger, caller: Principal, f: FrozenTransfer, now: U64)
    requires LedgerOk(l) && f.proposal.ledger == l.self
    ensures var m := Apply(l, caller, f, now).0;
      LedgerOk(m) && m.self == l.self && (m == l || m.blocks == l.blocks + [Block(caller, f)])
  {
    hide FrozenDigest;
    if (caller, FrozenDigest(f)) !in l.records && Refusal(l, caller, f, now).None? {
      CommitFiled(l, caller, f);
      CommitConserved(l, caller, f);
      hide Filed, Backed, Conserved;
    }
  }

  lemma WireNamesSelf(arg: TransferArg, ledger: Principal)
    requires FromIcrc(arg, ledger).Ok?
    ensures FromIcrc(arg, ledger).value.proposal.ledger == ledger
  {
  }

  /** One transfer call: at most one new block, always the payload asked for, and money is conserved. */
  lemma TransferKeeps(l: Ledger, caller: Principal, arg: TransferArg, now: U64)
    requires LedgerOk(l)
    ensures var m := Transfer(l, caller, arg, now).0;
      && LedgerOk(m) && m.self == l.self && l.blocks <= m.blocks
      && (m == l || (FromIcrc(arg, l.self).Ok? && m.blocks == l.blocks + [Block(caller, FromIcrc(arg, l.self).value)]))
      && forall n | |l.blocks| <= n < |m.blocks| :: m.blocks[n].caller == caller
  {
    hide LedgerOk, Apply, FrozenDigest;
    if FromIcrc(arg, l.self).Ok? {
      WireNamesSelf(arg, l.self);
      hide FromIcrc;
      ApplyKeeps(l, caller, FromIcrc(arg, l.self).value, now);
    }
  }

  /** A payload is on the chain for `caller` exactly when its key is on record. */
  lemma RecordedIffBlock(l: Ledger, caller: Principal, f: FrozenTransfer)
    requires Filed(l) && Backed(l)
    ensures (caller, FrozenDigest(f)) in l.records <==> Block(caller, f) in l.blocks
    ensures (caller, FrozenDigest(f)) in l.records ==>
      exists i: nat | i < |l.blocks| ::
        l.blocks[i] == Block(caller, f) && l.records[(caller, FrozenDigest(f))] == Lookup(FrozenDigest(f), Decimal.Show(i))
  {
    hide FrozenDigest;
    var key, b := (caller, FrozenDigest(f)), Block(caller, f);
    if key in l.records {
      var i :| 0 <= i < |l.blocks| && KeyOf(l.blocks[i]) == key;
      FrozenDigestInjective(l.blocks[i].transfer, f);
      assert l.blocks[i] == b;
    } else {
      forall i | 0 <= i < |l.blocks| ensures l.blocks[i] != b {
        assert KeyOf(l.blocks[i]) in l.records;
      }
    }
  }

  /** What each reply tells the caller about the chain afterwards. */
  lemma ReplyMeans(l: Ledger, caller: Principal, f: FrozenTransfer, now: U64)
    requires LedgerOk(l)
    ensures var (m, reply) := Apply(l, caller, f, now);
      var b := Block(caller, f);
      match reply
      case Landed(i) => i < |m.blocks| && m.blocks[i] == b
      case Refused(Duplicate(i)) => i < |m.blocks| && m.blocks[i] == b && m == l
      case Refused(_) => b !in m.blocks && m == l
      case Silent => b in m.blocks
  {
    hide FrozenDigest;
    RecordedIffBlock(l, caller, f);
    var key, b := (caller, FrozenDigest(f)), Block(caller, f);
    hide Filed, Backed, Conserved;
    if key in l.records {
      var i: nat :| i < |l.blocks| && l.blocks[i] == b && l.records[key] == Lookup(FrozenDigest(f), Decimal.Show(i));
      Decimal.ReadShow(i);
    } else if Refusal(l, caller, f, now).None? {
      var m := Commit(l, caller, f);
      assert m.blocks[|l.blocks|] == b;
    }
  }

  /** When a payload is committed: not on the chain yet, right fee, made within the window or a second ahead, room left, and affordable. */
  lemma CommitsExactly(l: Ledger, caller: Principal, f: FrozenTransfer, now: U64)
    requires LedgerOk(l) && f.proposal.ledger == l.self
    ensures var m, b := Apply(l, caller, f, now).0, Block(caller, f);
      m.blocks == l.blocks + [b] <==>
      && b !in l.blocks && (l.fault.NoFault? || l.fault.CommitThenCallbackTrap?) && f.proposal.fee == FEE
      && now <= f.createdAt + DEDUP_WINDOW_NS && f.createdAt <= now + 1_000_000_000
      && |l.blocks| < 2048 && (caller in l.balances || |l.balances| < 64)
      && f.proposal.amount + f.proposal.fee + Charged(l.blocks, caller) <= INITIAL_BALANCE
  {
    hide FrozenDigest;
    RecordedIffBlock(l, caller, f);
    hide Filed, Backed;
    assert Charged(l.blocks, caller) <= INITIAL_BALANCE && Balance(l, caller) == INITIAL_BALANCE - Charged(l.blocks, caller);
    hide Charged, Conserved;
    assert |l.blocks + [Block(caller, f)]| == |l.blocks| + 1;
  }

  /** A lookup that finds something finds that very payload, and says where it is. */
  lemma FindMeans(l: Ledger, caller: Principal, arg: TransferArg)
    requires LedgerOk(l) && FromIcrc(arg, l.self).Ok?
    ensures var b := Block(caller, FromIcrc(arg, l.self).value);
      match Find(l, caller, arg)
      case Some(found) => exists i: nat | i < |l.blocks| :: l.blocks[i] == b && found == Lookup(FrozenDigest(b.transfer), Decimal.Show(i))
      case None => b !in l.blocks
  {
    RecordedIffBlock(l, caller, FromIcrc(arg, l.self).value);
  }

  lemma FaultKeeps(l: Ledger, fault: Fault)
    requires LedgerOk(l)
    ensures LedgerOk(l.(fault := fault))
  {
    hide FrozenDigest;
    var m := l.(fault := fault);
    assert forall c :: Balance(m, c) == Balance(l, c);
  }

  /** The canister: `mutate` over the fields, with the blocks kept as ghost history. */
  class Canister {
    const self: Principal
    const owner: Principal
    var fault: Fault
    var next: nat
    var records: map<Key, Lookup>
    var balances: map<Principal, U128>
    ghost var blocks: seq<Block>

    ghost function View(): Ledger
      reads this
    {
      Ledger(self, owner, fault, next, records, balances, blocks)
    }

    ghost predicate Valid()
      reads this
    {
      LedgerOk(View())
    }

    constructor (self: Principal, owner: Principal)
      ensures Valid() && View() == Genesis(self, owner)
    {
      this.self, this.owner, fault, next, records, balances := self, owner, NoFault, 0, map[], map[];
      blocks := [];
      new;
      GenesisOk(self, owner);
    }

    method ChangeFault(caller: Principal, to: Fault) returns (r: Fallible<()>)
      requires Valid()
      modifies this
      ensures Valid() && (View(), r) == SetFault(old(View()), caller, to)
    {
      FaultKeeps(View(), to);
      hide LedgerOk;
      if caller != owner { return Err(Unauthorized); }
      fault := to;
      r := Ok(());
    }

    method LookUp(caller: Principal, arg: TransferArg) returns (r: Option<Lookup>)
      requires Valid()
      ensures r == Find(View(), caller, arg)
    {
      hide FromIcrc, FrozenDigest, LedgerOk;
      var f := FromIcrc(arg, self);
      if f.Err? { return None; }
      var key := (caller, FrozenDigest(f.value));
      r := if key in records then Some(records[key]) else None;
    }

    method Check(caller: Principal, f: FrozenTransfer, now: U64) returns (e: Option<TransferError>)
      ensures e == Refusal(View(), caller, f, now)
    {
      if fault == BadFeeFault { return Some(BadFee(FEE)); }
      if fault == TooOldFault || Age(now, f.createdAt) > DEDUP_WINDOW_NS { return Some(TooOld); }
      if f.createdAt > (if now + 1_000_000_000 < TWO_64 then now + 1_000_000_000 else TWO_64 - 1) {
        return Some(CreatedInFuture(now));
      }
      if f.proposal.fee != FEE { return Some(BadFee(FEE)); }
      if |records| >= 2048 || (caller !in balances && |balances| >= 64) { return Some(TemporarilyUnavailable); }
      var balance := if caller in balances then balances[caller] else INITIAL_BALANCE;
      var charge := f.proposal.Charge();
      if charge.Err? || charge.value > balance { return Some(InsufficientFunds(balance)); }
      return None;
    }

    method Mutate(caller: Principal, f: FrozenTransfer, now: U64) returns (r: Reply)
      requires Valid() && f.proposal.ledger == self
      modifies this
      ensures Valid() && (View(), r) == Apply(old(View()), caller, f, now)
    {
      hide FrozenDigest, LedgerOk;
      ApplyKeeps(View(), caller, f, now);
      var fingerprint := FrozenDigest(f);
      if (caller, fingerprint) in records {
        return Refused(Duplicate(Decimal.Read(records[(caller, fingerprint)].blockIndex)));
      }
      var refusal := Check(caller, f, now);
      if refusal.Some? { return Refused(refusal.value); }
      var index := next;
      next := next + 1;
      balances := balances[caller := (if caller in balances then balances[caller] else INITIAL_BALANCE) - f.proposal.Charge().value];
      records := records[(caller, fingerprint) := Lookup(fingerprint, Decimal.Show(index))];
      blocks := blocks + [Block(caller, f)];
      r := if fault == CommitThenCallbackTrap then Silent else Landed(index);
    }

    method Icrc1Transfer(caller: Principal, arg: TransferArg, now: U64) returns (r: Reply)
      requires Valid()
      modifies this
      ensures Valid() && (View(), r) == Transfer(old(View()), caller, arg, now)
    {
      hide FrozenDigest, LedgerOk, Apply;
      if caller == ANONYMOUS { return Refused(GenericError(1)); }
      var parsed := FromIcrc(arg, self);
      if parsed.Err? { return Refused(GenericError(2)); }
      WireNamesSelf(arg, self);
      r := Mutate(caller, parsed.value, now);
    }
  }
}
