/**
 Creating a shared JIT wallet: Resolve validates the recipients, Commit creates the child, stores their slices and funds
 it in one transfer, or undoes everything.
 */
module JitWallet {
  import opened Wrappers
  import opened Sums
  import opened Fees
  import opened Ledger
  import opened Admission
  import opened Protocol
  import opened Settlement
  import opened Conservation
  import opened Threads
  import opened TransactionsService
  import opened JitClaims
  import opened JitSolvency
  import opened JitHubService
  import opened InternalTransfer
  import AppsService
  import S = Slots

  const MAX_RECIPIENTS: nat := 100
  const PUBKEY: string := "pubkey"
  const CONNECTION_KEY: string := "connection_key"

  type Uint64 = x: nat | x < UINT64_RANGE

  datatype RecipientInput = RecipientInput(identityType: string, identityValue: string, amount: Uint64,
                                           iaPubkey: string)

  /** The hub's limits; a limit that is not positive is none. */
  datatype HubConfig = HubConfig(maxExpSecs: int, perWalletMaxMloki: int)

  /** The Identity Authority registry, if one is configured; a lookup in it may fail. */
  datatype Trust = NoRegistry | Registry(trusted: set<string>, unreachable: set<string>)

  datatype Problem =
    | NotAJitHub
    | NoRecipients
    | TooManyRecipients
    | NoConfig
    | ExpiryTooLong
    | UnknownIdentityType(index: nat)
    | MalformedIdentity(index: nat)
    | DuplicateIdentity(index: nat)
    | ZeroAmount(index: nat)
    | AmountTooLarge(index: nat)
    | SumOverflows(index: nat)
    | AuthorityProblem(index: nat)
    | OverWalletCap
    | HubCannotCover

  datatype Resolved = Resolved(recipients: seq<RecipientInput>, expiresAt: int)

  // ---------- identities ----------

  predicate IsHexDigit(c: char)
  {
    '0' <= c <= '9' || 'a' <= c <= 'f' || 'A' <= c <= 'F'
  }

  /** hex.DecodeString yields 32 bytes. */
  predicate IsKey(v: string)
  {
    |v| == 64 && forall i :: 0 <= i < |v| ==> IsHexDigit(v[i])
  }

  function HexValue(c: char): (n: nat)
    requires IsHexDigit(c)
    ensures n < 16
  {
    if c <= '9' then c as int - '0' as int
    else if c <= 'F' then c as int - 'A' as int + 10
    else c as int - 'a' as int + 10
  }

  function Decode(v: string): seq<nat>
    requires IsKey(v)
  {
    seq(32, i requires 0 <= i < 32 => 16 * HexValue(v[2 * i]) + HexValue(v[2 * i + 1]))
  }

  function LowerDigit(c: char): char
  {
    if 'A' <= c <= 'F' then c + ('a' - 'A') else c
  }

  function Lower(v: string): string
  {
    seq(|v|, i requires 0 <= i < |v| => LowerDigit(v[i]))
  }

  lemma SameDigitIff(c: char, d: char)
    requires IsHexDigit(c) && IsHexDigit(d)
    ensures HexValue(c) == HexValue(d) <==> LowerDigit(c) == LowerDigit(d)
  {
  }

  function Digit(n: nat): char
    requires n < 16
  {
    if n < 10 then '0' + n as char else 'a' + (n - 10) as char
  }

  /** The lowercase hex encoding of a key. */
  function Encode(bytes: seq<nat>): string
    requires forall i :: 0 <= i < |bytes| ==> bytes[i] < 256
  {
    seq(2 * |bytes|, i requires 0 <= i < 2 * |bytes| =>
      Digit(if i % 2 == 0 then bytes[i / 2] / 16 else bytes[i / 2] % 16))
  }

  lemma DigitOfValue(c: char)
    requires IsHexDigit(c)
    ensures Digit(HexValue(c)) == LowerDigit(c)
  {
  }

  lemma ValueOfDigit(n: nat)
    requires n < 16
    ensures IsHexDigit(Digit(n)) && HexValue(Digit(n)) == n && LowerDigit(Digit(n)) == Digit(n)
  {
  }

  /** Every 32 bytes have an accepted encoding, which decodes to them. */
  lemma EveryKeyIsAccepted(bytes: seq<nat>)
    requires |bytes| == 32 && forall i :: 0 <= i < |bytes| ==> bytes[i] < 256
    ensures IsKey(Encode(bytes)) && Decode(Encode(bytes)) == bytes
  {
    var v := Encode(bytes);
    forall i | 0 <= i < 64 ensures IsHexDigit(v[i]) {
      ValueOfDigit(if i % 2 == 0 then bytes[i / 2] / 16 else bytes[i / 2] % 16);
    }
    forall i | 0 <= i < 32 ensures Decode(v)[i] == bytes[i] {
      assert v[2 * i] == Digit(bytes[i] / 16) && v[2 * i + 1] == Digit(bytes[i] % 16);
      ValueOfDigit(bytes[i] / 16);
      ValueOfDigit(bytes[i] % 16);
    }
  }

  /** And every accepted value, in lowercase, is the encoding of what it decodes to. */
  lemma AcceptedIsEncoding(v: string)
    requires IsKey(v)
    ensures forall i :: 0 <= i < 32 ==> Decode(v)[i] < 256
    ensures Encode(Decode(v)) == Lower(v)
  {
    var bytes := Decode(v);
    assert forall i :: 0 <= i < 32 ==> bytes[i] == 16 * HexValue(v[2 * i]) + HexValue(v[2 * i + 1]) < 256;
    forall i | 0 <= i < 64 ensures Encode(bytes)[i] == Lower(v)[i] {
      var k := i / 2;
      assert bytes[k] / 16 == HexValue(v[2 * k]) && bytes[k] % 16 == HexValue(v[2 * k + 1]);
      DigitOfValue(v[2 * k]);
      DigitOfValue(v[2 * k + 1]);
      assert i == 2 * k || i == 2 * k + 1;
    }
  }

  /** Two identity values name the same key exactly when they are equal up to letter case. */
  lemma SameKeyIff(a: string, b: string)
    requires IsKey(a) && IsKey(b)
    ensures Decode(a) == Decode(b) <==> Lower(a) == Lower(b)
  {
    forall i | 0 <= i < 64 ensures HexValue(a[i]) == HexValue(b[i]) <==> Lower(a)[i] == Lower(b)[i] {
      SameDigitIff(a[i], b[i]);
    }
    if Decode(a) == Decode(b) {
      forall i | 0 <= i < 64 ensures Lower(a)[i] == Lower(b)[i] {
        assert Decode(a)[i / 2] == Decode(b)[i / 2];
      }
    }
    if Lower(a) == Lower(b) {
      forall i | 0 <= i < 32 ensures Decode(a)[i] == Decode(b)[i] {
        assert Lower(a)[2 * i] == Lower(b)[2 * i] && Lower(a)[2 * i + 1] == Lower(b)[2 * i + 1];
      }
    }
  }

  function DedupeKey(r: RecipientInput): string
  {
    r.identityType + ":" + r.identityValue
  }

  predicate KnownType(r: RecipientInput)
  {
    r.identityType == PUBKEY || r.identityType == CONNECTION_KEY
  }

  function IdentityOf(r: RecipientInput): Identity
  {
    if r.identityType == CONNECTION_KEY then ConnectionKey(r.identityValue) else Pubkey(r.identityValue)
  }

  /** The concatenated key of the duplicate check is injective on the two identity types. */
  lemma DedupeKeyIsInjective(a: RecipientInput, b: RecipientInput)
    requires KnownType(a) && KnownType(b)
    ensures DedupeKey(a) == DedupeKey(b) <==> IdentityOf(a) == IdentityOf(b)
  {
    assert DedupeKey(a)[..|a.identityType|] == a.identityType
      && DedupeKey(a)[|a.identityType| + 1..] == a.identityValue;
    assert DedupeKey(b)[..|b.identityType|] == b.identityType
      && DedupeKey(b)[|b.identityType| + 1..] == b.identityValue;
    assert PUBKEY[0] != CONNECTION_KEY[0];
    assert DedupeKey(a)[0] == a.identityType[0] && DedupeKey(b)[0] == b.identityType[0];
  }

  ghost predicate DistinctIdentities(rs: seq<RecipientInput>)
  {
    forall i, j :: 0 <= i < j < |rs| ==> IdentityOf(rs[i]) != IdentityOf(rs[j])
  }

  /** The stored identities name distinct keys too, if all are written in one letter case; the check is by text only. */
  lemma DistinctKeysIfLowercase(rs: seq<RecipientInput>, i: nat, j: nat)
    requires DistinctIdentities(rs) && i < j < |rs| && rs[i].identityType == rs[j].identityType
    requires IsKey(rs[i].identityValue) && IsKey(rs[j].identityValue) && KnownType(rs[i])
    ensures Decode(rs[i].identityValue) != Decode(rs[j].identityValue)
            <==> Lower(rs[i].identityValue) != Lower(rs[j].identityValue)
    ensures Lower(rs[i].identityValue) == rs[i].identityValue && Lower(rs[j].identityValue) == rs[j].identityValue ==>
              Decode(rs[i].identityValue) != Decode(rs[j].identityValue)
  {
    SameKeyIff(rs[i].identityValue, rs[j].identityValue);
    assert IdentityOf(rs[i]) != IdentityOf(rs[j]);
  }

  /** And not in general: one key, written in two letter cases, passes as two recipients. */
  lemma OneKeyTwice(a: RecipientInput, b: RecipientInput)
    requires a.identityType == b.identityType == PUBKEY
    requires a.identityValue == seq(64, i => 'a') && b.identityValue == seq(64, i => 'A')
    ensures IsKey(a.identityValue) && IsKey(b.identityValue) && DistinctIdentities([a, b])
    ensures Decode(a.identityValue) == Decode(b.identityValue)
  {
    assert a.identityValue[0] != b.identityValue[0];
    SameKeyIff(a.identityValue, b.identityValue);
  }

  // ---------- Resolve ----------

  predicate TrustedAuthority(r: RecipientInput, trust: Trust)
  {
    r.identityType == CONNECTION_KEY ==>
      IsKey(r.iaPubkey) && trust.Registry? && r.iaPubkey !in trust.unreachable && r.iaPubkey in trust.trusted
  }

  predicate GoodRecipient(r: RecipientInput, trust: Trust)
  {
    KnownType(r) && IsKey(r.identityValue) && 0 < r.amount <= MAX_INT64 && TrustedAuthority(r, trust)
  }

  ghost function AmountIn(): RecipientInput -> int
  {
    (r: RecipientInput) => r.amount
  }

  /** The mathematical sum of the requested amounts. */
  ghost function Total(rs: seq<RecipientInput>): nat
  {
    SumNonNegative(rs, AmountIn());
    Sum(rs, AmountIn())
  }

  lemma TotalSnoc(rs: seq<RecipientInput>, i: nat)
    requires i < |rs|
    ensures Total(rs[..i + 1]) == Total(rs[..i]) + rs[i].amount
  {
    assert rs[..i + 1] == rs[..i] + [rs[i]];
    SumSnoc(rs[..i], rs[i], AmountIn());
  }

  lemma TotalOfPrefix(rs: seq<RecipientInput>, i: nat)
    requires i <= |rs|
    ensures Total(rs[..i]) <= Total(rs)
  {
    assert rs == rs[..i] + rs[i..];
    SumConcat(rs[..i], rs[i..], AmountIn());
    SumNonNegative(rs[i..], AmountIn());
  }

  predicate ExpiryAllowed(expirySecs: int, config: HubConfig)
  {
    expirySecs <= 0 || config.maxExpSecs <= 0 || expirySecs <= config.maxExpSecs
  }

  ghost predicate AllGood(rs: seq<RecipientInput>, trust: Trust)
  {
    && (forall i :: 0 <= i < |rs| ==> GoodRecipient(rs[i], trust))
    && DistinctIdentities(rs) && Total(rs) <= MAX_INT64
  }

  ghost predicate Resolvable(kind: Kind, config: Option<HubConfig>, rs: seq<RecipientInput>, trust: Trust,
                             expirySecs: int, balance: int)
  {
    && kind == JITHub && 0 < |rs| <= MAX_RECIPIENTS && config.Some? && ExpiryAllowed(expirySecs, config.value)
    && AllGood(rs, trust)
    && (config.value.perWalletMaxMloki > 0 ==> Total(rs) <= config.value.perWalletMaxMloki) && Total(rs) <= balance
  }

  /** Everything is in order up to this recipient. */
  ghost predicate FirstWrong(rs: seq<RecipientInput>, trust: Trust, i: nat)
  {
    i < |rs| && AllGood(rs[..i], trust)
  }

  /** The recipient a refusal names is the first one that is wrong, and is wrong in that way. */
  ghost predicate Blames(p: Problem, rs: seq<RecipientInput>, trust: Trust)
  {
    match p
    case UnknownIdentityType(i) => FirstWrong(rs, trust, i) && !KnownType(rs[i])
    case MalformedIdentity(i) => FirstWrong(rs, trust, i) && !IsKey(rs[i].identityValue)
    case DuplicateIdentity(i) =>
      FirstWrong(rs, trust, i) && exists j :: 0 <= j < i && IdentityOf(rs[j]) == IdentityOf(rs[i])
    case ZeroAmount(i) => FirstWrong(rs, trust, i) && rs[i].amount == 0
    case AmountTooLarge(i) => FirstWrong(rs, trust, i) && rs[i].amount > MAX_INT64
    case SumOverflows(i) => FirstWrong(rs, trust, i) && MAX_INT64 < Total(rs[..i + 1])
    case AuthorityProblem(i) => FirstWrong(rs, trust, i) && !TrustedAuthority(rs[i], trust)
    case _ => true
  }

  /** The other refusals, in the order of the checks; those of single recipients come before the last two. */
  ghost predicate HubRefuses(p: Problem, kind: Kind, config: Option<HubConfig>, rs: seq<RecipientInput>, trust: Trust,
                             expirySecs: int, balance: int)
  {
    if kind != JITHub then p == NotAJitHub
    else if rs == [] then p == NoRecipients
    else if |rs| > MAX_RECIPIENTS then p == TooManyRecipients
    else if config.None? then p == NoConfig
    else if 0 < config.value.maxExpSecs < expirySecs then p == ExpiryTooLong
    else if !AllGood(rs, trust) then IsAboutRecipient(p)
    else if 0 < config.value.perWalletMaxMloki < Total(rs) then p == OverWalletCap
    else balance < Total(rs) && p == HubCannotCover
  }

  predicate IsAboutRecipient(p: Problem)
  {
    p.UnknownIdentityType? || p.MalformedIdentity? || p.DuplicateIdentity? || p.ZeroAmount? || p.AmountTooLarge?
    || p.SumOverflows? || p.AuthorityProblem?
  }

  method CheckAuthority(r: RecipientInput, trust: Trust) returns (ok: bool)
    ensures ok <==>
              r.identityType != CONNECTION_KEY
              || (IsKey(r.iaPubkey) && trust != NoRegistry && r.iaPubkey in trust.trusted - trust.unreachable)
  {
    if r.identityType != CONNECTION_KEY {
      return true;
    }
    if r.iaPubkey == "" || !IsKey(r.iaPubkey) {
      return false;
    }
    if trust.NoRegistry? || r.iaPubkey in trust.unreachable {
      return false;
    }
    ok := r.iaPubkey in trust.trusted;
  }

  ghost predicate Seen(rs: seq<RecipientInput>, n: nat, key: string)
    requires n <= |rs|
  {
    exists k :: 0 <= k < n && DedupeKey(rs[k]) == key
  }

  /**
   The tests on one recipient that look at nothing else, in the order of the code, split around the duplicate check.
   */
  method CheckIdentity(x: RecipientInput, i: nat) returns (p: Option<Problem>)
    ensures p.None? <==> KnownType(x) && IsKey(x.identityValue)
    ensures p.Some? ==> p.value == (if KnownType(x) then MalformedIdentity(i) else UnknownIdentityType(i))
  {
    if x.identityType != CONNECTION_KEY && x.identityType != PUBKEY {
      return Some(UnknownIdentityType(i));
    }
    if !IsKey(x.identityValue) {
      return Some(MalformedIdentity(i));
    }
    p := None;
  }

  method CheckAmount(x: RecipientInput, i: nat, sum: Uint64) returns (p: Option<Problem>)
    requires sum <= MAX_INT64
    ensures p.None? <==> 0 < x.amount <= MAX_INT64 && sum + x.amount <= MAX_INT64
    ensures p.Some? ==> p.value == (if x.amount == 0 then ZeroAmount(i)
                                    else if x.amount > MAX_INT64 then AmountTooLarge(i) else SumOverflows(i))
  {
    if x.amount == 0 {
      return Some(ZeroAmount(i));
    }
    if x.amount > MAX_INT64 {
      return Some(AmountTooLarge(i));
    }
    if x.amount > MAX_INT64 - sum {
      return Some(SumOverflows(i));
    }
    p := None;
  }

  /** The validation loop, over uint64: it never wraps, and it accepts exactly what is good over the integers. */
  method SumRecipients(rs: seq<RecipientInput>, trust: Trust) returns (r: Result<Uint64, Problem>)
    ensures r.Ok? <==> AllGood(rs, trust)
    ensures r.Ok? ==> r.value == Total(rs)
    ensures r.Err? ==> Blames(r.error, rs, trust) && IsAboutRecipient(r.error)
  {
    hide IsKey, DedupeKey, IdentityOf, Total;
    var sum: Uint64 := 0;
    var seen: map<string, bool> := map[];
    assert Total(rs[..0]) == 0 by { EmptyTotal(rs[..0]); }
    for i := 0 to |rs|
      invariant sum == Total(rs[..i]) <= MAX_INT64
      invariant forall k :: 0 <= k < i ==> GoodRecipient(rs[k], trust)
      invariant forall key :: key in seen <==> Seen(rs, i, key)
      invariant forall key :: key in seen ==> seen[key]
      invariant DistinctIdentities(rs[..i])
    {
      var x := rs[i];
      TotalSnoc(rs, i);
      TotalOfPrefix(rs, i + 1);
      var identity := CheckIdentity(x, i);
      if identity.Some? {
        return Err(identity.value);
      }
      if DedupeKey(x) in seen && seen[DedupeKey(x)] {
        SeenBefore(rs, i);
        return Err(DuplicateIdentity(i));
      }
      NotSeenBefore(rs, i);
      SeenOneMore(rs, i);
      seen := seen[DedupeKey(x) := true];
      var amount := CheckAmount(x, i, sum);
      if amount.Some? {
        return Err(amount.value);
      }
      var trusted := CheckAuthority(x, trust);
      if !trusted {
        return Err(AuthorityProblem(i));
      }
      sum := Wrap(sum + x.amount);
    }
    assert rs[..|rs|] == rs;
    r := Ok(sum);
  }

  lemma EmptyTotal(rs: seq<RecipientInput>)
    requires rs == []
    ensures Total(rs) == 0
  {
  }

  lemma SeenOneMore(rs: seq<RecipientInput>, i: nat)
    requires i < |rs|
    ensures forall key :: Seen(rs, i + 1, key) <==> (Seen(rs, i, key) || key == DedupeKey(rs[i]))
  {
    hide DedupeKey;
    forall key ensures Seen(rs, i + 1, key) <==> (Seen(rs, i, key) || key == DedupeKey(rs[i])) {
      if Seen(rs, i, key) {
        var k :| 0 <= k < i && DedupeKey(rs[k]) == key;
        assert 0 <= k < i + 1;
      }
      if Seen(rs, i + 1, key) && key != DedupeKey(rs[i]) {
        var k :| 0 <= k < i + 1 && DedupeKey(rs[k]) == key;
        assert k < i;
      }
    }
  }

  /** Accepts exactly the lists of well-formed, pairwise distinct recipients that hub and limits can bear. */
  method Resolve(db: Store, hub: AppId, config: Option<HubConfig>, rs: seq<RecipientInput>, trust: Trust,
                 expirySecs: int, now: int)
    returns (r: Result<Resolved, Problem>)
    requires hub in db.apps
    ensures r.Ok? <==> Resolvable(db.apps[hub].kind, config, rs, trust, expirySecs, IsolatedBalance(db.rows, hub))
    ensures r.Ok? ==> 0 < |rs| <= 100
    ensures r.Ok? ==> r.value.recipients == rs
                      && r.value.expiresAt == now + (if expirySecs <= 0 then config.value.maxExpSecs else expirySecs)
    ensures r.Err? ==> Blames(r.error, rs, trust)
    ensures r.Err? ==>
              HubRefuses(r.error, db.apps[hub].kind, config, rs, trust, expirySecs, IsolatedBalance(db.rows, hub))
  {
    hide GoodRecipient, DistinctIdentities, IsolatedBalance, Total;
    if db.apps[hub].kind != JITHub {
      return Err(NotAJitHub);
    }
    if |rs| == 0 {
      return Err(NoRecipients);
    }
    if |rs| > MAX_RECIPIENTS {
      return Err(TooManyRecipients);
    }
    if config.None? {
      return Err(NoConfig);
    }
    var duration := expirySecs;
    if duration <= 0 {
      duration := config.value.maxExpSecs;
    } else if config.value.maxExpSecs > 0 && duration > config.value.maxExpSecs {
      return Err(ExpiryTooLong);
    }
    var sum := SumRecipients(rs, trust);
    if sum.Err? {
      return Err(sum.error);
    }
    if config.value.perWalletMaxMloki > 0 && sum.value > config.value.perWalletMaxMloki {
      return Err(OverWalletCap);
    }
    if sum.value > IsolatedBalance(db.rows, hub) {
      return Err(HubCannotCover);
    }
    r := Ok(Resolved(rs, now + duration));
  }

  lemma SeenBefore(rs: seq<RecipientInput>, i: nat)
    requires i < |rs| && KnownType(rs[i]) && forall k :: 0 <= k < i ==> KnownType(rs[k])
    requires Seen(rs, i, DedupeKey(rs[i]))
    ensures exists j :: 0 <= j < i && IdentityOf(rs[j]) == IdentityOf(rs[i])
    ensures !DistinctIdentities(rs)
  {
    var k :| 0 <= k < i && DedupeKey(rs[k]) == DedupeKey(rs[i]);
    DedupeKeyIsInjective(rs[k], rs[i]);
  }

  lemma NotSeenBefore(rs: seq<RecipientInput>, i: nat)
    requires i < |rs| && KnownType(rs[i]) && forall k :: 0 <= k < i ==> KnownType(rs[k])
    requires !Seen(rs, i, DedupeKey(rs[i]))
    requires DistinctIdentities(rs[..i])
    ensures DistinctIdentities(rs[..i + 1])
  {
    forall k | 0 <= k < i ensures IdentityOf(rs[k]) != IdentityOf(rs[i]) {
      DedupeKeyIsInjective(rs[k], rs[i]);
    }
    var init, longer := rs[..i], rs[..i + 1];
    forall a, b | 0 <= a < b < |longer| ensures IdentityOf(longer[a]) != IdentityOf(longer[b]) {
      assert b < i ==> IdentityOf(init[a]) != IdentityOf(init[b]);
    }
  }

  // ---------- Commit ----------

  function SharesOf(rs: seq<RecipientInput>): (shares: seq<Share>)
    ensures |shares| == |rs|
    ensures forall i :: 0 <= i < |rs| ==>
              && shares[i].amount == rs[i].amount && shares[i].identity.value == rs[i].identityValue
              && (shares[i].identity.ConnectionKey? <==> rs[i].identityType == "connection_key")
  {
    seq(|rs|, i requires 0 <= i < |rs| => Share(IdentityOf(rs[i]), rs[i].amount))
  }

  /** The child that Commit creates: its cap is the funded total in whole loki. */
  function Child(hub: AppId, sum: nat): App
  {
    App(JITWallet, Some(hub), JITParent, true, sum / 1000, 0)
  }

  /** The sum again, this time without any guard: it is the mathematical one because Resolve has passed. */
  method SumAmounts(rs: seq<RecipientInput>) returns (sum: Uint64)
    requires Total(rs) <= MAX_INT64
    ensures sum == Total(rs)
  {
    hide Total;
    sum := 0;
    assert Total(rs[..0]) == 0 by { EmptyTotal(rs[..0]); }
    for i := 0 to |rs|
      invariant sum == Total(rs[..i])
    {
      TotalSnoc(rs, i);
      TotalOfPrefix(rs, i + 1);
      sum := Wrap(sum + rs[i].amount);
    }
    assert rs[..|rs|] == rs;
  }

  predicate NoneNamedTwice(shares: seq<Share>)
  {
    forall i, j :: 0 <= i < j < |shares| ==> shares[i].identity != shares[j].identity
  }

  /** Nobody of these is a recipient of the wallet; one who was removed may be added again. */
  predicate NoneListed(slices: seq<Slice>, wallet: AppId, shares: seq<Share>)
  {
    forall k, i ::
      0 <= k < |slices| && 0 <= i < |shares| && slices[k].wallet == wallet && !slices[k].status.Removed? ==>
        slices[k].identity != shares[i].identity
  }

  /** What the unique index refuses. */
  lemma IndexAccepts(slices: seq<Slice>, wallet: AppId, shares: seq<Share>)
    requires UniqueKeys(slices)
    ensures UniqueKeys(WithShares(slices, wallet, shares)) <==>
              NoneNamedTwice(shares) && NoneListed(slices, wallet, shares)
  {
    var all, n := WithShares(slices, wallet, shares), |slices|;
    if UniqueKeys(all) {
      forall i, j | 0 <= i < j < |shares| ensures shares[i].identity != shares[j].identity {
        assert !SameKey(all[n + i], all[n + j]);
      }
      forall k, i | 0 <= k < n && 0 <= i < |shares| && slices[k].wallet == wallet && !slices[k].status.Removed?
        ensures slices[k].identity != shares[i].identity
      {
        assert !SameKey(all[k], all[n + i]);
      }
    }
    if NoneNamedTwice(shares) && NoneListed(slices, wallet, shares) {
      forall a, b | 0 <= a < b < |all| ensures !SameKey(all[a], all[b]) && !SameKey(all[b], all[a]) {
        if b < n {
          assert !SameKey(slices[a], slices[b]);
        }
      }
    }
  }

  /** CreateJITWalletClaims: one batch, which the unique index may refuse. */
  method CreateJITWalletClaims(db: Store, wallet: AppId, shares: seq<Share>) returns (ok: bool)
    modifies db`slices
    ensures ok <==> 0 < |shares| <= MAX_RECIPIENTS && UniqueKeys(WithShares(old(db.slices), wallet, shares))
    ensures UniqueKeys(old(db.slices)) && 0 < |shares| <= MAX_RECIPIENTS ==>
              (ok <==> NoneNamedTwice(shares) && NoneListed(old(db.slices), wallet, shares))
    ensures ok ==>
              db.Abs() == Next(old(db.Abs()), AddSlices(wallet, shares))
                && db.slices == WithShares(old(db.slices), wallet, shares)
    ensures ok ==>
              && |db.slices| == |old(db.slices)| + |shares| && old(db.slices) <= db.slices
              && forall i :: 0 <= i < |shares| ==>
                   db.slices[|old(db.slices)| + i] == Slice(|old(db.slices)| + i, wallet, shares[i].identity,
                                                            shares[i].amount, Unclaimed)
    ensures !ok ==> db.slices == old(db.slices)
  {
    if UniqueKeys(db.slices) {
      IndexAccepts(db.slices, wallet, shares);
    }
    if |shares| == 0 || |shares| > MAX_RECIPIENTS {
      return false;
    }
    if !UniqueKeys(WithShares(db.slices, wallet, shares)) {
      return false;
    }
    db.slices := WithShares(db.slices, wallet, shares);
    ok := true;
  }

  predicate HasNoSlices(slices: seq<Slice>, wallet: AppId)
  {
    forall k :: 0 <= k < |slices| ==> slices[k].wallet != wallet
  }

  /**
   The recipients of a wallet and their amounts, in the order of their rows, whatever has happened to the rows since.
   */
  function SharesIn(slices: seq<Slice>, wallet: AppId): seq<Share>
  {
    if |slices| == 0 then []
    else
      var init, last := SharesIn(slices[..|slices| - 1], wallet), slices[|slices| - 1];
      if last.wallet == wallet then init + [Share(last.identity, last.amount)] else init
  }

  lemma SharesInSnoc(slices: seq<Slice>, c: Slice, wallet: AppId)
    ensures SharesIn(slices + [c], wallet)
         == SharesIn(slices, wallet) + (if c.wallet == wallet then [Share(c.identity, c.amount)] else [])
  {
    assert (slices + [c])[..|slices|] == slices;
  }

  lemma {:induction false} SharesInUpdated(slices: seq<Slice>, k: nat, status: SliceStatus, wallet: AppId)
    requires k < |slices|
    ensures SharesIn(WithStatus(slices, k, status), wallet) == SharesIn(slices, wallet)
  {
    var n := |slices| - 1;
    var slices' := WithStatus(slices, k, status);
    if k == n {
      assert slices'[..n] == slices[..n];
    } else {
      SharesInUpdated(slices[..n], k, status, wallet);
      assert slices'[..n] == WithStatus(slices[..n], k, status);
    }
  }

  lemma {:induction false} SharesInStored(slices: seq<Slice>, to: AppId, shares: seq<Share>, wallet: AppId)
    ensures SharesIn(WithShares(slices, to, shares), wallet)
             == SharesIn(slices, wallet) + (if to == wallet then shares else [])
  {
    if |shares| == 0 {
      assert WithShares(slices, to, shares) == slices;
    } else {
      var init, last := shares[..|shares| - 1], shares[|shares| - 1];
      SharesInStored(slices, to, init, wallet);
      var c := Slice(|slices| + |init|, to, last.identity, last.amount, Unclaimed);
      assert WithShares(slices, to, shares) == WithShares(slices, to, init) + [c];
      SharesInSnoc(WithShares(slices, to, init), c, wallet);
      assert shares == init + [last];
    }
  }

  lemma StepKeepsShares(slices: seq<Slice>, step: Step, wallet: AppId)
    requires !AddsSlicesTo(step, wallet)
    ensures SharesIn(SlicesAfter(slices, step), wallet) == SharesIn(slices, wallet)
  {
    match step
    case AddSlices(to, shares) => SharesInStored(slices, to, shares, wallet);
    case ClaimSlice(k, holder) =>
      if k < |slices| { SharesInUpdated(slices, k, Claimed(holder), wallet); }
    case UnclaimSlice(k, holder) =>
      if k < |slices| { SharesInUpdated(slices, k, Unclaimed, wallet); }
    case RemoveSlice(k, holder) =>
      if k < |slices| { SharesInUpdated(slices, k, Removed(holder), wallet); }
    case _ =>
  }

  lemma {:induction false} NoneIn(slices: seq<Slice>, wallet: AppId)
    requires HasNoSlices(slices, wallet)
    ensures SharesIn(slices, wallet) == []
  {
    if |slices| > 0 {
      NoneIn(slices[..|slices| - 1], wallet);
    }
  }

  lemma {:induction false} GapKeepsShares(s: State, trace: seq<Move>, wallet: AppId)
    requires LedgerOnly(trace) && Keeps(s, trace, false, NoMoreSlices(wallet))
    ensures SharesIn(After(s, trace).slices, wallet) == SharesIn(s.slices, wallet)
  {
    if |trace| > 0 {
      var init, last := trace[..|trace| - 1], trace[|trace| - 1];
      assert last in trace;
      assert forall m <- init :: m in trace;
      GapKeepsShares(s, init, wallet);
      StepKeepsShares(After(s, init).slices, last.step, wallet);
    }
  }

  lemma {:induction false} GapAddsNoSlices(s: State, trace: seq<Move>, wallet: AppId)
    requires LedgerOnly(trace) && Keeps(s, trace, false, NoMoreSlices(wallet))
    ensures Sum(After(s, trace).slices, AmountOf(wallet)) == Sum(s.slices, AmountOf(wallet))
  {
    if |trace| > 0 {
      var init, last := trace[..|trace| - 1], trace[|trace| - 1];
      assert last in trace;
      assert forall m <- init :: m in trace;
      GapAddsNoSlices(s, init, wallet);
      SliceAmountsStay(After(s, init).slices, last.step, wallet);
    }
  }

  lemma {:induction false} SharesAddUp(slices: seq<Slice>, wallet: AppId, rs: seq<RecipientInput>)
    ensures Sum(WithShares(slices, wallet, SharesOf(rs)), AmountOf(wallet)) == Sum(slices, AmountOf(wallet)) + Total(rs)
  {
    if |rs| == 0 {
      assert WithShares(slices, wallet, SharesOf(rs)) == slices;
    } else {
      var init, last := rs[..|rs| - 1], rs[|rs| - 1];
      SharesAddUp(slices, wallet, init);
      var c := Slice(|slices| + |init|, wallet, IdentityOf(last), last.amount, Unclaimed);
      assert WithShares(slices, wallet, SharesOf(rs)) == WithShares(slices, wallet, SharesOf(init)) + [c];
      SumSnoc(WithShares(slices, wallet, SharesOf(init)), c, AmountOf(wallet));
      assert rs[..|rs|] == rs;
      TotalSnoc(rs, |rs| - 1);
    }
  }

  /** What the wallet has received otherwise than by this transfer. */
  ghost function OtherReceiptsOf(wallet: AppId, hash: PaymentHash): Row -> int
  {
    (r: Row) => if r.hash == hash then 0 else ReceiptsOf(wallet)(r)
  }

  /**
   The transfer's receipt pays for exactly the slices: the surplus of the new wallet is what it has received otherwise,
   and nothing if it has not.
   */
  lemma FundedByTransfer(s: State, from: Option<AppId>, wallet: AppId, hash: PaymentHash, total: nat)
    requires Transferred(s.rows, from, Some(wallet), hash, total) && Sum(s.slices, AmountOf(wallet)) == total
    ensures Surplus(s, wallet) == Sum(s.rows, OtherReceiptsOf(wallet, hash)) >= 0
    ensures (forall i :: 0 <= i < |s.rows| && s.rows[i].app == Some(wallet) ==> s.rows[i].hash == hash) ==>
              Surplus(s, wallet) == 0
  {
    var j, id :| 0 <= j < |s.rows| && 0 <= id < |s.rows| && Completes(s.rows, j, id, from, Some(wallet), hash, total);
    forall k | 0 <= k < |s.rows| && k != j
      ensures OtherReceiptsOf(wallet, hash)(s.rows[k]) == ReceiptsOf(wallet)(s.rows[k])
    {
      assert s.rows[k].hash == hash ==> k == id;
    }
    SumDiffersAt(s.rows, j, OtherReceiptsOf(wallet, hash), ReceiptsOf(wallet));
    SumNonNegative(s.rows, OtherReceiptsOf(wallet, hash));
    if forall i :: 0 <= i < |s.rows| && s.rows[i].app == Some(wallet) ==> s.rows[i].hash == hash {
      SumOfZeros(s.rows, OtherReceiptsOf(wallet, hash));
    }
  }

  datatype CommitOutcome = Created | RolledBack | HubRefused | StillFunding

  /**
   What Commit relies on: an undisturbed transfer, a claims table in order, and nobody else adding slices to the wallet.
   */
  ghost predicate CommitUndisturbed(s: State, trace: seq<Move>, wallet: AppId, hash: PaymentHash)
  {
    Undisturbed(s, trace, hash) && SoundSlices(s.apps, s.slices) && Keeps(s, trace, false, NoMoreSlices(wallet))
  }

  /** The same, once the child exists. */
  ghost predicate StoreUndisturbed(s: State, trace: seq<Move>, wallet: AppId, hash: PaymentHash)
  {
    && Undisturbed(s, trace, hash) && UniqueKeys(s.slices) && HasNoSlices(s.slices, wallet)
    && Keeps(s, trace, false, NoMoreSlices(wallet))
  }

  /**
   All or nothing: no other outcome exists. The wallet's slices are the recipients that were asked for, each with its
   amount, and their sum is what the hub has paid in.
   */
  ghost predicate CommitAnswer(s: State, out: CommitOutcome, hub: AppId, wallet: AppId, hash: PaymentHash,
                               rs: seq<RecipientInput>)
  {
    match out
    case Created =>
      && Transferred(s.rows, Some(hub), Some(wallet), hash, Total(rs))
      && SharesIn(s.slices, wallet) == SharesOf(rs) && Sum(s.slices, AmountOf(wallet)) == Total(rs)
      && Surplus(s, wallet) == Sum(s.rows, OtherReceiptsOf(wallet, hash)) >= 0
    case RolledBack => Untouched(s.rows, hash)
    case HubRefused => Untouched(s.rows, hash)
    case StillFunding => false
  }

  /**
   Against the state the call found: a created wallet has cost the hub exactly the total and has gained it, and
   otherwise nothing has moved, neither for the hub nor for anybody else.
   */
  ghost predicate CommitBooked(s: State, trace: seq<Move>, rows: seq<Row>, out: CommitOutcome, hub: AppId,
                               wallet: AppId, rs: seq<RecipientInput>)
  {
    Moved(s, trace, rows, Some(hub), Some(wallet), if out == Created then Total(rs) else 0,
          if out == RolledBack then {wallet} else {})
  }

  lemma AnswerIsBooked(s: State, trace: seq<Move>, rows: seq<Row>, out: CommitOutcome, hub: AppId, wallet: AppId,
                       hash: PaymentHash, rs: seq<RecipientInput>)
    requires Undisturbed(s, trace, hash) && Keeps(s, trace, true, TouchesOnly(hash))
    requires CommitAnswer(After(s, trace), out, hub, wallet, hash, rs)
    requires rows == if out == RolledBack then AppsService.WithoutRows(After(s, trace).rows, {wallet})
                     else After(s, trace).rows
    ensures CommitBooked(s, trace, rows, out, hub, wallet, rs)
  {
    hide Books, Keeps, TouchesOnly, Private, Transferred, Untouched, IsUnused, IsolatedBalance, Total, Sum, SharesIn;
    TransferMoves(s, trace, Some(hub), Some(wallet), hash, Total(rs));
    forall b: AppId | b != wallet
      ensures IsolatedBalance(AppsService.WithoutRows(After(s, trace).rows, {wallet}), b)
               == IsolatedBalance(After(s, trace).rows, b)
    {
      AppsService.DeletionTakesItsBalance(After(s, trace).rows, wallet, b);
    }
  }

  /** A creation writes one app, the child under its hub, one batch of slices, the child's, and payments of no slice. */
  ghost predicate IsCreation(s: State, step: Step, hub: AppId, wallet: AppId, rs: seq<RecipientInput>)
  {
    match step
    case ChangeApps(newApps) =>
      wallet !in s.apps && newApps == s.apps[wallet := App(JITWallet, Some(hub), JITParent, true, Total(rs) / 1000, 0)]
    case AddSlices(to, shares) => to == wallet && shares == SharesOf(rs) && IsJitWallet(s.apps, Some(wallet))
    case _ => IsLedgerStep(step)
  }

  ghost function CreatesOnly(hub: AppId, wallet: AppId, rs: seq<RecipientInput>): (State, Step) -> bool
  {
    (s: State, step: Step) => IsCreation(s, step, hub, wallet, rs)
  }

  /** The wallet as its creation leaves it: it may claim funds, and its cap is the total in whole loki. */
  predicate IsCreated(apps: Apps, wallet: AppId, hub: AppId, total: nat)
  {
    wallet in apps && apps[wallet] == App(JITWallet, Some(hub), JITParent, true, total / 1000, 0)
  }

  /** The step does not reconfigure the app. */
  predicate SameApp(s: State, step: Step, a: AppId)
  {
    a in s.apps ==> a in Next(s, step).apps && Next(s, step).apps[a] == s.apps[a]
  }

  ghost function LeavesApp(a: AppId): (State, Step) -> bool
  {
    (s: State, step: Step) => SameApp(s, step, a)
  }

  lemma {:induction false} CreatedStays(s: State, trace: seq<Move>, hub: AppId, wallet: AppId, rs: seq<RecipientInput>)
    requires wallet in s.apps && Keeps(s, trace, false, LeavesApp(wallet))
    requires Keeps(s, trace, true, CreatesOnly(hub, wallet, rs))
    ensures wallet in After(s, trace).apps && After(s, trace).apps[wallet] == s.apps[wallet]
  {
    if |trace| > 0 {
      hide EffectOf, Total;
      CreatedStays(s, trace[..|trace| - 1], hub, wallet, rs);
    }
  }

  lemma StillAsCreated(s: State, gap: seq<Move>, hub: AppId, wallet: AppId, rs: seq<RecipientInput>, rest: seq<Move>)
    requires AllOthers(gap) && wallet !in After(s, gap).apps
    requires var step := ChangeApps(After(s, gap).apps[wallet := Child(hub, Total(rs))]);
             && Keeps(Next(After(s, gap), step), rest, true, CreatesOnly(hub, wallet, rs))
             && Keeps(s, gap + [Move(true, step)] + rest, false, LeavesApp(wallet))
    ensures var step := ChangeApps(After(s, gap).apps[wallet := Child(hub, Total(rs))]);
            IsCreated(After(Next(After(s, gap), step), rest).apps, wallet, hub, Total(rs))
  {
    hide Total, CreatesOnly, LeavesApp;
    var step := ChangeApps(After(s, gap).apps[wallet := Child(hub, Total(rs))]);
    KeepsConcat(s, gap + [Move(true, step)], rest, false, LeavesApp(wallet));
    KeepsSnoc(s, gap, Move(true, step), false, LeavesApp(wallet));
    CreatedStays(Next(After(s, gap), step), rest, hub, wallet, rs);
  }

  /** Everything between the creation of the child and the decision to keep or undo it. */
  method StoreAndFund(db: Store, hub: AppId, wallet: AppId, rs: seq<RecipientInput>, sum: Uint64, keysOk: bool,
                      hash: nat, invoiceOk: bool, preimage: bool, now: int, budgetStart: int, nodeInfoOk: bool)
    returns (out: CommitOutcome, ghost trace: seq<Move>)
    requires Coherent(db.Abs()) && 0 < |rs| <= MAX_RECIPIENTS && sum == Total(rs) && DistinctIdentities(rs)
    modifies db
    ensures out != HubRefused && db.Abs() == After(old(db.Abs()), trace)
    ensures out == Created || out == StillFunding ==> keysOk && invoiceOk
    ensures IsJitWallet(old(db.apps), Some(wallet)) ==> Keeps(old(db.Abs()), trace, true, CreatesOnly(hub, wallet, rs))
    ensures Keeps(old(db.Abs()), trace, true, TouchesOnly(Invoice(hash)))
    ensures StoreUndisturbed(old(db.Abs()), trace, wallet, Invoice(hash)) ==>
              && Keeps(old(db.Abs()), trace, true, KeepsBooks()) && Books(db.Abs())
              && CommitAnswer(db.Abs(), out, hub, wallet, Invoice(hash), rs)
              && (keysOk && invoiceOk && preimage && Affordable(old(db.Abs()), trace, Some(hub), sum) ==>
                  out == Created)
  {
    hide Coherent, Books, KeepsBooks, Private, NoMoreSlices, Next, Transferred, Untouched, Surplus, Total,
      UniqueKeys, SharesOf, WithShares, DistinctIdentities, HasNoSlices, Affordable, CreatesOnly, LedgerOnly,
      TouchesOnly, SharesIn;
    ghost var s0 := db.Abs();
    ghost var gap := Interference(db);
    AfterFacts(s0, gap);
    OthersKeepOwnRule(s0, gap, CreatesOnly(hub, wallet, rs));
    OthersKeepOwnRule(s0, gap, TouchesOnly(Invoice(hash)));
    OthersKeepOwnRule(s0, gap, KeepsBooks());
    if StoreUndisturbed(s0, gap, wallet, Invoice(hash)) {
      BooksAfter(s0, gap);
      StaysUnused(s0, gap, Invoice(hash));
    }
    if !keysOk {
      return RolledBack, gap;
    }
    ghost var s1 := db.Abs();
    SharesFit(rs);
    var stored := CreateJITWalletClaims(db, wallet, SharesOf(rs));
    if !stored {
      if StoreUndisturbed(s0, gap, wallet, Invoice(hash)) {
        SharesAreAccepted(s0, gap, wallet, rs);
      }
      return RolledBack, gap;
    }
    ghost var step := AddSlices(wallet, SharesOf(rs));
    ghost var s2 := db.Abs();
    StepKeepsCoherent(s1, step);
    var moved;
    ghost var rest;
    moved, rest := Transfer(db, Some(hub), Some(wallet), sum, hash, invoiceOk, preimage, now, budgetStart, nodeInfoOk);
    out := CommitOutcomeOf(moved);
    ghost var head := gap + [Move(true, step)];
    trace := head + rest;
    AfterConcat(s0, head, rest);
    KeepsSnoc(s0, gap, Move(true, step), true, KeepsBooks());
    StoringCreatesOnly(s0, gap, hub, wallet, rs, rest);
    SilentTouchesNothing(s0, gap, step, rest, Invoice(hash));
    if StoreUndisturbed(s0, trace, wallet, Invoice(hash)) {
      FundedAnswer(s0, gap, rest, moved, hub, wallet, Invoice(hash), rs);
    }
  }

  function CommitOutcomeOf(moved: TransferOutcome): CommitOutcome
  {
    match moved
    case Done => Created
    case Open => StillFunding
    case _ => RolledBack
  }

  /** The slices are stored and the transfer has its answer. */
  lemma FundedAnswer(s0: State, gap: seq<Move>, rest: seq<Move>, moved: TransferOutcome, hub: AppId, wallet: AppId,
                     hash: PaymentHash, rs: seq<RecipientInput>)
    requires AllOthers(gap) && LedgerOnly(rest) && UniqueKeys(WithShares(After(s0, gap).slices, wallet, SharesOf(rs)))
    requires StoreUndisturbed(s0, gap + [Move(true, AddSlices(wallet, SharesOf(rs)))] + rest, wallet, hash)
    requires var s2 := Next(After(s0, gap), AddSlices(wallet, SharesOf(rs)));
             Undisturbed(s2, rest, hash) ==>
               && Keeps(s2, rest, true, KeepsBooks())
               && TransferAnswer(After(s2, rest).rows, moved, Some(hub), Some(wallet), hash, Total(rs))
    ensures var step := AddSlices(wallet, SharesOf(rs));
            var s2 := Next(After(s0, gap), step);
            var trace := gap + [Move(true, step)] + rest;
            && Undisturbed(s2, rest, hash) && Keeps(s0, trace, true, KeepsBooks())
            && CommitAnswer(After(s2, rest), CommitOutcomeOf(moved), hub, wallet, hash, rs)
            && (Affordable(s0, trace, Some(hub), Total(rs)) ==> Affordable(s2, rest, Some(hub), Total(rs)))
  {
    hide Books, KeepsBooks, Private, NoMoreSlices, Next, Transferred, Untouched, Surplus, Total, UniqueKeys, SharesOf,
      WithShares, HasNoSlices, Affordable, LedgerOnly, SharesIn, Undisturbed;
    var step := AddSlices(wallet, SharesOf(rs));
    var s2 := Next(After(s0, gap), step);
    SplitCommit(s0, gap, step, rest, wallet, hash);
    SlicesStored(s0, gap, rest, wallet, rs);
    if moved == Done {
      FundedByTransfer(After(s2, rest), Some(hub), wallet, hash, Total(rs));
    }
    if Affordable(s0, gap + [Move(true, step)] + rest, Some(hub), Total(rs)) {
      StillAffordable(s0, gap, step, rest, Some(hub), Total(rs));
    }
  }

  lemma {:induction false} LedgerOnlyCreatesOnly(s: State, trace: seq<Move>, hub: AppId, wallet: AppId,
                                                 rs: seq<RecipientInput>)
    requires LedgerOnly(trace)
    ensures Keeps(s, trace, true, CreatesOnly(hub, wallet, rs))
  {
    if |trace| > 0 {
      LedgerOnlyCreatesOnly(s, trace[..|trace| - 1], hub, wallet, rs);
      assert trace[|trace| - 1] in trace;
    }
  }

  lemma StoringCreatesOnly(s: State, gap: seq<Move>, hub: AppId, wallet: AppId, rs: seq<RecipientInput>,
                           rest: seq<Move>)
    requires AllOthers(gap) && LedgerOnly(rest)
    ensures IsJitWallet(s.apps, Some(wallet)) ==>
              Keeps(s, gap + [Move(true, AddSlices(wallet, SharesOf(rs)))] + rest, true, CreatesOnly(hub, wallet, rs))
  {
    hide Total, SharesOf;
    var store := Move(true, AddSlices(wallet, SharesOf(rs)));
    AppsGrow(s, gap);
    OthersKeepOwnRule(s, gap, CreatesOnly(hub, wallet, rs));
    KeepsSnoc(s, gap, store, true, CreatesOnly(hub, wallet, rs));
    KeepsConcat(s, gap + [store], rest, true, CreatesOnly(hub, wallet, rs));
    LedgerOnlyCreatesOnly(After(s, gap + [store]), rest, hub, wallet, rs);
  }

  lemma SharesFit(rs: seq<RecipientInput>)
    ensures |SharesOf(rs)| == |rs|
  {
  }

  lemma {:induction false} NoSlicesYet(s: State, gap: seq<Move>, wallet: AppId)
    requires AllOthers(gap) && Keeps(s, gap, false, NoMoreSlices(wallet)) && HasNoSlices(s.slices, wallet)
    ensures HasNoSlices(After(s, gap).slices, wallet)
  {
    if |gap| > 0 {
      NoSlicesYet(s, gap[..|gap| - 1], wallet);
    }
  }

  lemma {:induction false} KeysUniqueAfter(s: State, trace: seq<Move>)
    requires UniqueKeys(s.slices)
    ensures UniqueKeys(After(s, trace).slices)
  {
    if |trace| > 0 {
      KeysUniqueAfter(s, trace[..|trace| - 1]);
      KeysStayUnique(After(s, trace[..|trace| - 1]).slices, trace[|trace| - 1].step);
    }
  }

  /** The unique index accepts distinct identities for a wallet without slices. */
  lemma SharesAreAccepted(s: State, gap: seq<Move>, wallet: AppId, rs: seq<RecipientInput>)
    requires AllOthers(gap) && Keeps(s, gap, false, NoMoreSlices(wallet)) && HasNoSlices(s.slices, wallet)
    requires UniqueKeys(s.slices) && DistinctIdentities(rs)
    ensures UniqueKeys(WithShares(After(s, gap).slices, wallet, SharesOf(rs)))
  {
    NoSlicesYet(s, gap, wallet);
    KeysUniqueAfter(s, gap);
    hide Keeps, After;
    var slices := After(s, gap).slices;
    var all := WithShares(slices, wallet, SharesOf(rs));
    forall i, j | 0 <= i < |all| && 0 <= j < |all| && SameKey(all[i], all[j]) ensures i == j {
      if i < |slices| && j < |slices| {
        assert SameKey(slices[i], slices[j]);
      }
    }
  }

  /** What the others promised over the whole, they promised over its parts. */
  lemma SplitCommit(s0: State, gap: seq<Move>, step: Step, rest: seq<Move>, wallet: AppId, hash: PaymentHash)
    requires AllOthers(gap) && step.AddSlices? && StoreUndisturbed(s0, gap + [Move(true, step)] + rest, wallet, hash)
    ensures var s2 := Next(After(s0, gap), step);
            && Undisturbed(s2, rest, hash) && Keeps(s2, rest, false, NoMoreSlices(wallet))
            && Keeps(s0, gap, false, NoMoreSlices(wallet))
            && (Keeps(s2, rest, true, KeepsBooks()) ==> Keeps(s0, gap + [Move(true, step)] + rest, true, KeepsBooks()))
  {
    hide Undisturbed;
    AfterSilentStep(s0, gap, step, rest, hash);
    KeepsConcat(s0, gap + [Move(true, step)], rest, false, NoMoreSlices(wallet));
    KeepsSnoc(s0, gap, Move(true, step), false, NoMoreSlices(wallet));
  }

  lemma SlicesStored(s0: State, gap: seq<Move>, rest: seq<Move>, wallet: AppId, rs: seq<RecipientInput>)
    requires AllOthers(gap) && HasNoSlices(s0.slices, wallet) && LedgerOnly(rest)
    requires Keeps(s0, gap, false, NoMoreSlices(wallet))
    requires UniqueKeys(WithShares(After(s0, gap).slices, wallet, SharesOf(rs)))
    requires Keeps(Next(After(s0, gap), AddSlices(wallet, SharesOf(rs))), rest, false, NoMoreSlices(wallet))
    ensures var slices' := After(Next(After(s0, gap), AddSlices(wallet, SharesOf(rs))), rest).slices;
            SharesIn(slices', wallet) == SharesOf(rs) && Sum(slices', AmountOf(wallet)) == Total(rs)
  {
    hide UniqueKeys, WithShares, SharesOf, Total, SharesIn;
    NoSlicesYet(s0, gap, wallet);
    NoneIn(After(s0, gap).slices, wallet);
    SharesInStored(After(s0, gap).slices, wallet, SharesOf(rs), wallet);
    GapKeepsShares(Next(After(s0, gap), AddSlices(wallet, SharesOf(rs))), rest, wallet);
    SumOfZeros(s0.slices, AmountOf(wallet));
    GapAddsNoSlices(s0, gap, wallet);
    var s1 := After(s0, gap);
    SharesAddUp(s1.slices, wallet, rs);
    GapAddsNoSlices(Next(s1, AddSlices(wallet, SharesOf(rs))), rest, wallet);
  }

  /** The child is gone, and its slices and payments with it; nobody else's balance has changed by that. */
  ghost predicate Undone(db: Store, last: State, wallet: AppId)
    reads db
  {
    && AppsService.Deleted(db, last.apps, last.rows, last.slices, {wallet}) && db.owed == last.owed
    && db.log == last.log
    && wallet !in db.apps
    && (forall k :: 0 <= k < |db.slices| && db.slices[k].wallet == wallet ==> db.slices[k].status.Removed?)
    && (forall other :: IsolatedBalance(db.rows, other) == if other == wallet then 0 else IsolatedBalance(last.rows,
                                                                                                          other))
  }

  /**
   Commit, all or nothing. Created: the child exists under its hub, its slices add up to the mathematical total, and the
   hub has lost exactly that total to it. Rolled back: no child, no slices, and the hub has not moved. Undisturbed,
   there is no third outcome on a live hub, and a hub that can pay and that nobody else moves gets its child. `last` is
   the state before a rollback, which the trace leads to.
   */
  method Commit(db: Store, hub: AppId, rs: seq<RecipientInput>, keysOk: bool, hash: nat, invoiceOk: bool,
                preimage: bool, now: int, budgetStart: int, nodeInfoOk: bool)
    returns (out: CommitOutcome, wallet: AppId, ghost trace: seq<Move>, ghost last: State)
    requires Coherent(db.Abs()) && hub in db.apps
    requires 0 < |rs| <= MAX_RECIPIENTS && DistinctIdentities(rs) && Total(rs) <= MAX_INT64
    modifies db
    ensures last == After(old(db.Abs()), trace) && wallet !in old(db.apps)
    ensures Keeps(old(db.Abs()), trace, true, Bystander())
            && Keeps(old(db.Abs()), trace, true, CreatesOnly(hub, wallet, rs))
    ensures Keeps(old(db.Abs()), trace, true, TouchesOnly(Invoice(hash)))
    ensures out == HubRefused <==> old(db.apps)[hub].kind != JITHub
    ensures out == Created || out == StillFunding ==> keysOk && invoiceOk
    ensures out != RolledBack ==> db.Abs() == last
    ensures out == HubRefused ==> AllOthers(trace)
    ensures out == Created ==> IsJitWallet(db.apps, Some(wallet)) && db.apps[wallet].parent == Some(hub)
    ensures out == Created && Keeps(old(db.Abs()), trace, false, LeavesApp(wallet)) ==>
              IsCreated(db.apps, wallet, hub, Total(rs))
    ensures out == RolledBack ==> Undone(db, last, wallet)
    ensures CommitUndisturbed(old(db.Abs()), trace, wallet, Invoice(hash)) ==>
              && Keeps(old(db.Abs()), trace, true, KeepsBooks()) && Books(last)
              && CommitAnswer(last, out, hub, wallet, Invoice(hash), rs)
              && CommitBooked(old(db.Abs()), trace, db.rows, out, hub, wallet, rs)
              && (keysOk && invoiceOk && preimage && Affordable(old(db.Abs()), trace, Some(hub), Total(rs)) ==>
                    out == Created || out == HubRefused)
  {
    hide Coherent, Books, Total, CommitUndisturbed, StoreUndisturbed, CommitAnswer, KeepsBooks, Affordable, Undone,
      DistinctIdentities, Keeps, Next, Bystander, CreatesOnly, TouchesOnly, CommitBooked,
      IsCreated, LeavesApp;
    ghost var s0 := db.Abs();
    ghost var gap := Interference(db);
    OthersKeepOwnRule(s0, gap, Bystander());
    AppsGrow(s0, gap);
    AfterFacts(s0, gap);
    var sum := SumAmounts(rs);
    wallet := AppsService.FreshId(db.apps);
    OthersKeepOwnRule(s0, gap, CreatesOnly(hub, wallet, rs));
    var created := AppsService.CreateApp(db, wallet, Child(hub, sum));
    if !created {
      RefusedCommit(s0, gap, hub, wallet, Invoice(hash), rs);
      return HubRefused, wallet, gap, After(s0, gap);
    }
    ghost var s1 := After(s0, gap);
    ghost var step := ChangeApps(s1.apps[wallet := Child(hub, sum)]);
    CreationStep(s1, wallet, Child(hub, sum));
    ghost var s2 := db.Abs();
    ghost var rest;
    out, rest := StoreAndFund(db, hub, wallet, rs, sum, keysOk, hash, invoiceOk, preimage, now, budgetStart,
                              nodeInfoOk);
    trace, last := gap + [Move(true, step)] + rest, db.Abs();
    AfterConcat(s0, gap, [Move(true, step)]);
    AfterConcat(s0, gap + [Move(true, step)], rest);
    AppsGrow(s2, rest);
    CreatingOnly(s0, gap, hub, wallet, rs, rest);
    if Keeps(s0, trace, false, LeavesApp(wallet)) {
      StillAsCreated(s0, gap, hub, wallet, rs, rest);
    }
    SilentTouchesNothing(s0, gap, step, rest, Invoice(hash));
    if CommitUndisturbed(s0, trace, wallet, Invoice(hash)) {
      AfterCreation(s0, gap, step, rest, wallet, Invoice(hash));
      if Affordable(s0, trace, Some(hub), sum) {
        StillAffordable(s0, gap, step, rest, Some(hub), sum);
      }
    }
    if out == RolledBack {
      var deleted := AppsService.DeleteApp(db, wallet);
      WalletUndone(db, last, wallet);
    }
    if CommitUndisturbed(s0, trace, wallet, Invoice(hash)) {
      UndisturbedIsBooked(s0, trace, db.rows, out, hub, wallet, Invoice(hash), rs);
    }
  }

  lemma UndisturbedIsBooked(s: State, trace: seq<Move>, rows: seq<Row>, out: CommitOutcome, hub: AppId, wallet: AppId,
                            hash: PaymentHash, rs: seq<RecipientInput>)
    requires CommitUndisturbed(s, trace, wallet, hash) && Keeps(s, trace, true, TouchesOnly(hash))
    requires CommitAnswer(After(s, trace), out, hub, wallet, hash, rs)
    requires rows == if out == RolledBack then AppsService.WithoutRows(After(s, trace).rows, {wallet})
                     else After(s, trace).rows
    ensures CommitBooked(s, trace, rows, out, hub, wallet, rs)
  {
    hide Undisturbed, CommitAnswer, CommitBooked, Keeps;
    AnswerIsBooked(s, trace, rows, out, hub, wallet, hash, rs);
  }

  lemma CreatingOnly(s: State, gap: seq<Move>, hub: AppId, wallet: AppId, rs: seq<RecipientInput>, rest: seq<Move>)
    requires AllOthers(gap) && wallet !in After(s, gap).apps
    requires var step := ChangeApps(After(s, gap).apps[wallet := Child(hub, Total(rs))]);
             Keeps(Next(After(s, gap), step), rest, true, CreatesOnly(hub, wallet, rs))
    ensures var step := ChangeApps(After(s, gap).apps[wallet := Child(hub, Total(rs))]);
            && Keeps(s, gap + [Move(true, step)] + rest, true, CreatesOnly(hub, wallet, rs))
            && Keeps(s, gap + [Move(true, step)] + rest, true, Bystander())
  {
    hide Total, Next;
    var rule := CreatesOnly(hub, wallet, rs);
    var step := ChangeApps(After(s, gap).apps[wallet := Child(hub, Total(rs))]);
    OthersKeepOwnRule(s, gap, rule);
    KeepsSnoc(s, gap, Move(true, step), true, rule);
    KeepsConcat(s, gap + [Move(true, step)], rest, true, rule);
    CreatorIsBystander(s, gap + [Move(true, step)] + rest, hub, wallet, rs);
  }

  lemma {:induction false} CreatorIsBystander(s: State, trace: seq<Move>, hub: AppId, wallet: AppId,
                                              rs: seq<RecipientInput>)
    requires Keeps(s, trace, true, CreatesOnly(hub, wallet, rs))
    ensures Keeps(s, trace, true, Bystander())
  {
    if |trace| > 0 {
      CreatorIsBystander(s, trace[..|trace| - 1], hub, wallet, rs);
    }
  }

  lemma RefusedCommit(s: State, gap: seq<Move>, hub: AppId, wallet: AppId, hash: PaymentHash, rs: seq<RecipientInput>)
    requires AllOthers(gap)
    ensures Keeps(s, gap, true, TouchesOnly(hash))
    ensures CommitUndisturbed(s, gap, wallet, hash) ==>
              && Keeps(s, gap, true, KeepsBooks()) && Books(After(s, gap))
              && CommitAnswer(After(s, gap), HubRefused, hub, wallet, hash, rs)
              && CommitBooked(s, gap, After(s, gap).rows, HubRefused, hub, wallet, rs)
  {
    hide CommitBooked, TouchesOnly;
    OthersKeepOwnRule(s, gap, KeepsBooks());
    OthersKeepOwnRule(s, gap, TouchesOnly(hash));
    if CommitUndisturbed(s, gap, wallet, hash) {
      BooksAfter(s, gap);
      StaysUnused(s, gap, hash);
      AnswerIsBooked(s, gap, After(s, gap).rows, HubRefused, hub, wallet, hash, rs);
    }
  }

  lemma WalletUndone(db: Store, last: State, wallet: AppId)
    requires AppsService.Deleted(db, last.apps, last.rows, last.slices, {wallet}) && db.owed == last.owed
             && db.log == last.log
    ensures Undone(db, last, wallet)
  {
    forall other
      ensures IsolatedBalance(db.rows, other) == if other == wallet then 0 else IsolatedBalance(last.rows, other)
    {
      AppsService.DeletionTakesItsBalance(last.rows, wallet, other);
    }
  }

  lemma CreationStep(s: State, wallet: AppId, child: App)
    requires wallet !in s.apps && Coherent(s)
    ensures var step := ChangeApps(s.apps[wallet := child]);
            && After(s, [Move(true, step)]) == Next(s, step) == s.(apps := s.apps[wallet := child])
            && Coherent(Next(s, step))
  {
    var step := ChangeApps(s.apps[wallet := child]);
    assert [Move(true, step)][..0] == [];
    StepKeepsCoherent(s, step);
  }

  lemma AfterCreation(s: State, gap: seq<Move>, step: Step, rest: seq<Move>, wallet: AppId, hash: PaymentHash)
    requires AllOthers(gap) && step.ChangeApps? && wallet !in s.apps
    requires CommitUndisturbed(s, gap + [Move(true, step)] + rest, wallet, hash)
    ensures var s2 := Next(After(s, gap), step);
            && StoreUndisturbed(s2, rest, wallet, hash)
            && (Keeps(s2, rest, true, KeepsBooks()) ==> Keeps(s, gap + [Move(true, step)] + rest, true, KeepsBooks()))
  {
    hide Undisturbed, UniqueKeys;
    AfterSilentStep(s, gap, step, rest, hash);
    KeepsConcat(s, gap + [Move(true, step)], rest, false, NoMoreSlices(wallet));
    KeepsSnoc(s, gap, Move(true, step), false, NoMoreSlices(wallet));
    NoSlicesYet(s, gap, wallet);
    KeysUniqueAfter(s, gap);
  }

  // ---------- what the recipients get ----------

  ghost function LeavesWallet(wallet: AppId): (State, Step) -> bool
  {
    (s: State, step: Step) => !AddsSlicesTo(step, wallet) && SameApp(s, step, wallet)
  }

  lemma {:induction false} WalletStaysCreated(s: State, steps: seq<Step>, hub: AppId, wallet: AppId, total: nat)
    requires IsCreated(s.apps, wallet, hub, total) && Along(s, steps, LeavesWallet(wallet))
    ensures IsCreated(Run(s, steps).apps, wallet, hub, total)
    ensures Sum(Run(s, steps).slices, AmountOf(wallet)) == Sum(s.slices, AmountOf(wallet))
    ensures SharesIn(Run(s, steps).slices, wallet) == SharesIn(s.slices, wallet)
    ensures Along(s, steps, NoMoreSlices(wallet))
  {
    if |steps| > 0 {
      hide EffectOf, SlicesAfter;
      var init, last := steps[..|steps| - 1], steps[|steps| - 1];
      WalletStaysCreated(s, init, hub, wallet, total);
      SliceAmountsStay(Run(s, init).slices, last, wallet);
      StepKeepsShares(Run(s, init).slices, last, wallet);
    }
  }

  /**
   End to end: from the state in which Commit reports a wallet created, along any run that keeps the slices and leaves
   the wallet's cap, scope and list of recipients alone, the recipients and their amounts are those that were asked for,
   and while its payments were for slices, cost no fee and none is pending, every slice that its recipient has claimed
   is admitted for payment to any invoice that is not paid or being paid.
   */
  lemma EveryRecipientIsPaid(s: State, steps: seq<Step>, hub: AppId, wallet: AppId, hash: PaymentHash,
                             rs: seq<RecipientInput>, req: Request)
    requires CommitAnswer(s, Created, hub, wallet, hash, rs) && IsCreated(s.apps, wallet, hub, Total(rs))
    requires SlicesSound(s) && Total(rs) <= MAX_INT64
    requires Along(s, steps, KeepsSlices()) && Along(s, steps, LeavesWallet(wallet))
    requires var s' := Run(s, steps);
             && req.purpose.ClaimPayout? && PaysItsSlice(s', req) && s'.slices[req.purpose.slice].wallet == wallet
             && MayBePaid(s'.rows, req.hash) && Leak(s', wallet) == 0 && Diverted(s', wallet) == 0
    ensures var s' := Run(s, steps);
            && SharesIn(s'.slices, wallet) == SharesOf(rs)
            && Admit(s'.apps, s'.rows, req) == Ok(OutgoingRow(req, 0))
  {
    hide SlicesSound, PaysItsSlice, MayBePaid, Leak, Diverted, Admit, Surplus, SharesIn, SharesOf, Total, Transferred;
    WalletStaysCreated(s, steps, hub, wallet, Total(rs));
    RunKeepsSlicesSound(s, steps);
    FundedStaysFunded(s, steps, wallet);
    EverySliceIsPayable(Run(s, steps), req);
  }

  // ---------- Create, under the hub's slot ----------

  datatype CreateOutcome = Busy | Invalid(problem: Problem) | Committed(outcome: CommitOutcome)

  /**
   Create as its callers run it: one creation at a time per hub, validation, then Commit. Whatever the outcome, the slot
   is free again; an invalid request or a busy hub changes nothing. An accepted request that nobody disturbs, on a hub
   whose balance nobody else moves, ends with the child created.
   */
  method Create(db: Store, slots: S.Slots, me: nat, hub: AppId, config: Option<HubConfig>, rs: seq<RecipientInput>,
                trust: Trust, expirySecs: int, keysOk: bool, hash: nat, invoiceOk: bool, preimage: bool, now: int,
                budgetStart: int, nodeInfoOk: bool)
    returns (out: CreateOutcome, wallet: AppId, ghost trace: seq<Move>, ghost last: State)
    requires Coherent(db.Abs()) && hub in db.apps && slots.Valid() && (hub, me) !in slots.inside
    modifies db, slots
    ensures slots.Valid() && (hub, me) !in slots.inside && (hub !in old(slots.busy) ==> hub !in slots.busy)
    ensures out == Busy <==> hub in old(slots.busy)
    ensures out.Invalid? ==>
              !Resolvable(old(db.apps)[hub].kind, config, rs, trust, expirySecs, IsolatedBalance(old(db.rows), hub))
              && Blames(out.problem, rs, trust)
              && HubRefuses(out.problem, old(db.apps)[hub].kind, config, rs, trust, expirySecs,
                            IsolatedBalance(old(db.rows), hub))
    ensures out.Committed? && out.outcome != RolledBack ==> keysOk && invoiceOk
    ensures out.Committed? ==>
              Resolvable(old(db.apps)[hub].kind, config, rs, trust, expirySecs, IsolatedBalance(old(db.rows), hub))
    ensures !out.Committed? ==> db.Abs() == old(db.Abs())
    ensures last == After(old(db.Abs()), trace) && wallet !in old(db.apps)
    ensures Keeps(old(db.Abs()), trace, true, Bystander())
            && Keeps(old(db.Abs()), trace, true, CreatesOnly(hub, wallet, rs))
    ensures Keeps(old(db.Abs()), trace, true, TouchesOnly(Invoice(hash)))
    ensures out.Committed? ==> out.outcome != HubRefused
    ensures out.Committed? && out.outcome == Created ==>
              db.Abs() == last && IsJitWallet(db.apps, Some(wallet)) && db.apps[wallet].parent == Some(hub)
    ensures out.Committed? && out.outcome == Created && Keeps(old(db.Abs()), trace, false, LeavesApp(wallet)) ==>
              IsCreated(db.apps, wallet, hub, Total(rs))
    ensures out.Committed? && out.outcome == RolledBack ==> Undone(db, last, wallet)
    ensures out.Committed? && CommitUndisturbed(old(db.Abs()), trace, wallet, Invoice(hash)) ==>
              && Books(last) && CommitAnswer(last, out.outcome, hub, wallet, Invoice(hash), rs)
              && CommitBooked(old(db.Abs()), trace, db.rows, out.outcome, hub, wallet, rs)
              && (keysOk && invoiceOk && preimage && Keeps(old(db.Abs()), trace, false, Quiet(hub)) ==>
                  out.outcome == Created)
  {
    hide Coherent, Books, Total, CommitUndisturbed, CommitAnswer, CommitBooked, Undone, DistinctIdentities,
      GoodRecipient, TouchesOnly;
    last, trace := db.Abs(), [];
    wallet := AppsService.FreshId(db.apps);
    var locked := slots.TryTake(hub, me);
    if !locked {
      return Busy, wallet, trace, last;
    }
    var resolved := Resolve(db, hub, config, rs, trust, expirySecs, now);
    if resolved.Err? {
      out := Invalid(resolved.error);
    } else {
      PositiveTotal(rs, trust);
      var committed;
      committed, wallet, trace, last := Commit(db, hub, resolved.value.recipients, keysOk, hash, invoiceOk, preimage,
                                               now, budgetStart, nodeInfoOk);
      out := Committed(committed);
    }
    slots.Release(hub, me);
  }

  lemma PositiveTotal(rs: seq<RecipientInput>, trust: Trust)
    requires AllGood(rs, trust) && |rs| > 0
    ensures Total(rs) > 0
  {
    SumBoundsMember(rs, 0, AmountIn());
    assert GoodRecipient(rs[0], trust);
  }
}
