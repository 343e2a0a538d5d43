/** The client application state store of the ride-hailing demo: one
    long-lived object holding session, ride, wallet, car-view and UI state,
    and the actions that replace its fields in lockstep.

    Money is modelled as exact `real` amounts. The clock and the random
    source are parameters of the actions that read them: a ride or
    transaction id (`Date.now().toString()`), the calendar day
    (`new Date().toISOString().split('T')[0]`), the price draw
    (`Math.random()`), the hour of day and the random base-36 text behind the
    referral code. */
module Store {
  import opened Wrappers

  datatype User = User(id: string, name: string, email: string, phone: string)

  datatype RideStatus = Active | Completed | Cancelled

  datatype Ride = Ride(id: string, from: string, to: string, status: RideStatus,
                       date: string, price: real, driver: string)

  datatype TxType = Credit | Debit

  datatype Transaction = Transaction(id: string, kind: TxType, amount: real,
                                     description: string, date: string)

  datatype ViewMode = Sky | Rooftop | Street

  datatype CarConfig = CarConfig(color: string, rotation: real, viewMode: ViewMode, isNightMode: bool)

  /** A `Partial<CarConfig>`: `None` is a key that is absent from the patch. */
  datatype CarConfigPatch = CarConfigPatch(color: Option<string>, rotation: Option<real>,
                                           viewMode: Option<ViewMode>, isNightMode: Option<bool>)

  /** The data half of the store's state (its actions are the methods of AppStore). */
  datatype AppState = AppState(
    user: Option<User>,
    isAuthenticated: bool,
    currentRide: Option<Ride>,
    rideHistory: seq<Ride>,
    walletBalance: real,
    transactions: seq<Transaction>,
    carConfig: CarConfig,
    soundEnabled: bool,
    engineStarted: bool,
    referralCode: string,
    referralCount: int)

  /** The subset of the state written to local storage. */
  datatype PersistedState = PersistedState(
    user: Option<User>,
    isAuthenticated: bool,
    walletBalance: real,
    transactions: seq<Transaction>,
    rideHistory: seq<Ride>,
    soundEnabled: bool,
    referralCode: string,
    referralCount: int)

  // ---------------------------------------------------------------------
  // Constants and seed data

  const DemoUserId := "1"
  const DemoUserName := "Alex Rider"
  const DemoUserPhone := "+1234567890"
  const AutoPilot := "AutoPilot"
  const AddedFunds := "Added funds"

  const SeedBalance: real := 250.0

  const SeedRides: seq<Ride> := [
    Ride("1", "Downtown Hub", "Airport Terminal 3", Completed, "2026-02-25", 45.5, "Marcus"),
    Ride("2", "Central Park", "Tech Campus", Completed, "2026-02-24", 22.0, "Sarah"),
    Ride("3", "Marina Bay", "City Hall", Cancelled, "2026-02-23", 18.75, "Jin")
  ]

  const SeedTransactions: seq<Transaction> := [
    Transaction("1", Credit, 100.0, AddedFunds, "2026-02-25"),
    Transaction("2", Debit, 45.5, "Ride to Airport", "2026-02-25")
  ]

  /** Night mode is on from 18:00 up to 06:00 (hour of `new Date().getHours()`). */
  predicate IsNightHour(hour: int)
  {
    hour >= 18 || hour < 6
  }

  /** `'NEON' + text.substring(2, 7).toUpperCase()`, where `text` is the
      base-36 rendering of a random draw. `substring` clamps its bounds to
      the string, so a short text gives a short (or empty) suffix. */
  function ReferralCode(text: string): (code: string)
    ensures |code| == 4 + (if |text| < 2 then 0 else if |text| < 7 then |text| - 2 else 5)
    ensures code[..4] == "NEON"
    ensures forall i :: 4 <= i < |code| ==> code[i] == AsciiUpper(text[i - 2])
  {
    var lo := if |text| < 2 then |text| else 2;
    var hi := if |text| < 7 then |text| else 7;
    "NEON" + UpperCase(text[lo..hi])
  }

  function AsciiUpper(c: char): char
  {
    if 'a' <= c <= 'z' then (c as int - 32) as char else c
  }

  function UpperCase(s: string): (r: string)
    ensures |r| == |s| && forall i :: 0 <= i < |s| ==> r[i] == AsciiUpper(s[i])
  {
    seq(|s|, i requires 0 <= i < |s| => AsciiUpper(s[i]))
  }

  function SeedCarConfig(hour: int): CarConfig
  {
    CarConfig("#00F0FF", 0.0, Street, IsNightHour(hour))
  }

  /** The state a fresh load starts from. */
  function SeedState(hour: int, referralText: string): AppState
  {
    AppState(None, false, None, SeedRides, SeedBalance, SeedTransactions,
             SeedCarConfig(hour), true, false, ReferralCode(referralText), 3)
  }

  // ---------------------------------------------------------------------
  // Pure computations used by the actions

  /** `Math.floor(r * 40 + 10)`: the price of a booked ride from a draw `r`. */
  function RidePrice(r: real): int
  {
    (r * 40.0 + 10.0).Floor
  }

  /** The price is the largest integer not above `r * 40 + 10`; for a draw
      from [0, 1) it is a whole amount from 10 to 49. */
  lemma RidePriceRange(r: real)
    ensures RidePrice(r) as real <= r * 40.0 + 10.0 < RidePrice(r) as real + 1.0
    ensures 0.0 <= r < 1.0 ==> 10 <= RidePrice(r) <= 49
  {
  }

  function RideDescription(from: string, to: string): string
  {
    "Ride: " + from + " \U{2192} " + to
  }

  /** `rideHistory.map(r => r.id === id ? { ...r, status: 'cancelled' } : r)` */
  function CancelMatching(history: seq<Ride>, id: string): (h: seq<Ride>)
    ensures |h| == |history|
    ensures forall i :: 0 <= i < |h| && history[i].id == id ==> h[i] == history[i].(status := Cancelled)
    ensures forall i :: 0 <= i < |h| && history[i].id != id ==> h[i] == history[i]
  {
    if history == [] then []
    else
      var head := if history[0].id == id then history[0].(status := Cancelled) else history[0];
      [head] + CancelMatching(history[1..], id)
  }

  lemma CancelUnknownIsIdentity(history: seq<Ride>, id: string)
    requires forall r :: r in history ==> r.id != id
    ensures CancelMatching(history, id) == history
  {
    var h := CancelMatching(history, id);
    assert forall i :: 0 <= i < |h| ==> h[i] == history[i] by {
      forall i | 0 <= i < |h| ensures h[i] == history[i] {
        assert history[i] in history;
      }
    }
  }

  lemma CancelIdempotent(history: seq<Ride>, id: string)
    ensures CancelMatching(CancelMatching(history, id), id) == CancelMatching(history, id)
  {
  }

  /** The shallow merge `{ ...config, ...patch }`. */
  function MergeConfig(c: CarConfig, p: CarConfigPatch): CarConfig
  {
    CarConfig(p.color.GetOr(c.color), p.rotation.GetOr(c.rotation),
              p.viewMode.GetOr(c.viewMode), p.isNightMode.GetOr(c.isNightMode))
  }

  /** Every field present in the patch takes the patch's value; every absent
      field keeps the old one. */
  lemma MergeChangesExactlyPresent(c: CarConfig, p: CarConfigPatch)
    ensures var r := MergeConfig(c, p);
      (if p.color.Some? then r.color == p.color.value else r.color == c.color) &&
      (if p.rotation.Some? then r.rotation == p.rotation.value else r.rotation == c.rotation) &&
      (if p.viewMode.Some? then r.viewMode == p.viewMode.value else r.viewMode == c.viewMode) &&
      (if p.isNightMode.Some? then r.isNightMode == p.isNightMode.value else r.isNightMode == c.isNightMode)
  {
  }

  /** Applying the same patch twice is the same as applying it once. */
  lemma MergeIdempotent(c: CarConfig, p: CarConfigPatch)
    ensures MergeConfig(MergeConfig(c, p), p) == MergeConfig(c, p)
  {
  }

  /** Signed effect of one ledger entry on the balance. */
  function Signed(t: Transaction): real
  {
    if t.kind == Credit then t.amount else -t.amount
  }

  function Credits(ts: seq<Transaction>): real
  {
    if ts == [] then 0.0 else (if ts[0].kind == Credit then ts[0].amount else 0.0) + Credits(ts[1..])
  }

  function Debits(ts: seq<Transaction>): real
  {
    if ts == [] then 0.0 else (if ts[0].kind == Debit then ts[0].amount else 0.0) + Debits(ts[1..])
  }

  /** What a ledger adds to the balance, entry by entry. */
  function Net(ts: seq<Transaction>): real
  {
    if ts == [] then 0.0 else Signed(ts[0]) + Net(ts[1..])
  }

  /** A ledger adds its credits and takes away its debits. */
  lemma {:induction false} NetIsCreditsMinusDebits(ts: seq<Transaction>)
    ensures Net(ts) == Credits(ts) - Debits(ts)
  {
    if ts != [] {
      NetIsCreditsMinusDebits(ts[1..]);
    }
  }

  lemma {:induction false} NetConcat(a: seq<Transaction>, b: seq<Transaction>)
    ensures Net(a + b) == Net(a) + Net(b)
  {
    if a == [] {
      assert a + b == b;
    } else {
      assert (a + b)[1..] == a[1..] + b;
      NetConcat(a[1..], b);
    }
  }

  /** The seed ledger nets 54.50 while the seed balance is 250.00, so the
      ledger invariant can only be stated relative to the opening state. */
  lemma SeedLedgerIsNotSeedBalance()
    ensures Net(SeedTransactions) == 54.5
    ensures Net(SeedTransactions) != SeedBalance
  {
    var ts := SeedTransactions;
    assert ts[1..][1..] == [];
    assert Net(ts[1..]) == -45.5 + Net(ts[1..][1..]);
    assert Net(ts) == 100.0 + Net(ts[1..]);
  }

  /** The wallet and its ledger agree relative to an opening state: the
      ledger is the entries recorded since the opening (newest first)
      followed by the opening ledger, and the balance has moved from the
      opening balance by exactly the net of those entries. */
  ghost predicate LedgerConsistent(balance: real, ts: seq<Transaction>, added: seq<Transaction>,
                                   openingBalance: real, openingLedger: seq<Transaction>)
  {
    ts == added + openingLedger && balance == openingBalance + Net(added)
  }

  /** Under the ledger invariant the balance is the opening balance plus the
      credits minus the debits recorded since the opening, and the balance
      differs from the whole ledger's net by what it did at the opening. */
  lemma LedgerBalance(balance: real, ts: seq<Transaction>, added: seq<Transaction>,
                      openingBalance: real, openingLedger: seq<Transaction>)
    requires LedgerConsistent(balance, ts, added, openingBalance, openingLedger)
    ensures balance == openingBalance + Credits(added) - Debits(added)
    ensures balance - Net(ts) == openingBalance - Net(openingLedger)
  {
    NetConcat(added, openingLedger);
    NetIsCreditsMinusDebits(added);
  }

  /** Prepending an entry and moving the balance by its signed amount keeps
      the ledger invariant: this is what addFunds and bookRide do. */
  lemma LedgerPrepend(balance: real, ts: seq<Transaction>, added: seq<Transaction>, t: Transaction,
                      openingBalance: real, openingLedger: seq<Transaction>)
    requires LedgerConsistent(balance, ts, added, openingBalance, openingLedger)
    ensures LedgerConsistent(balance + Signed(t), [t] + ts, [t] + added, openingBalance, openingLedger)
  {
    assert ([t] + added)[1..] == added;
    assert [t] + (added + openingLedger) == ([t] + added) + openingLedger;
  }

  /** `partialize`: the eight persisted fields. */
  function Partialize(s: AppState): PersistedState
  {
    PersistedState(s.user, s.isAuthenticated, s.walletBalance, s.transactions,
                   s.rideHistory, s.soundEnabled, s.referralCode, s.referralCount)
  }

  /** Two states persist the same blob exactly when they agree on the eight
      persisted fields. */
  lemma PartializeKeepsExactlyPersisted(a: AppState, b: AppState)
    ensures Partialize(a) == Partialize(b) <==>
      a.user == b.user && a.isAuthenticated == b.isAuthenticated &&
      a.walletBalance == b.walletBalance && a.transactions == b.transactions &&
      a.rideHistory == b.rideHistory && a.soundEnabled == b.soundEnabled &&
      a.referralCode == b.referralCode && a.referralCount == b.referralCount
  {
  }

  /** The current ride, the car configuration and the engine flag are not persisted. */
  lemma PartializeDropsTransient(s: AppState, ride: Option<Ride>, config: CarConfig, engine: bool)
    ensures Partialize(s.(currentRide := ride, carConfig := config, engineStarted := engine)) == Partialize(s)
  {
  }

  // ---------------------------------------------------------------------
  // The store

  class AppStore {
    var user: Option<User>
    var isAuthenticated: bool
    var currentRide: Option<Ride>
    var rideHistory: seq<Ride>
    var walletBalance: real
    var transactions: seq<Transaction>
    var carConfig: CarConfig
    var soundEnabled: bool
    var engineStarted: bool
    var referralCode: string
    var referralCount: int

    /** The balance and ledger the store was created with. */
    ghost var openingBalance: real
    ghost var openingLedger: seq<Transaction>
    /** The ledger entries recorded since then, newest first. */
    ghost var added: seq<Transaction>

    function Snapshot(): AppState
      reads this
    {
      AppState(user, isAuthenticated, currentRide, rideHistory, walletBalance, transactions,
               carConfig, soundEnabled, engineStarted, referralCode, referralCount)
    }

    /** The store's invariant: the session pair agrees, the current ride (if
        any) is the newest ride and still active, and wallet and ledger move
        in lockstep. */
    ghost predicate Valid()
      reads this
    {
      (isAuthenticated <==> user.Some?) &&
      (currentRide.Some? ==>
         |rideHistory| > 0 && rideHistory[0] == currentRide.value && currentRide.value.status == Active) &&
      LedgerConsistent(walletBalance, transactions, added, openingBalance, openingLedger)
    }

    constructor (hour: int, referralText: string)
      ensures Valid()
      ensures Snapshot() == SeedState(hour, referralText)
      ensures openingBalance == SeedBalance && openingLedger == SeedTransactions && added == []
    {
      user, isAuthenticated := None, false;
      currentRide, rideHistory := None, SeedRides;
      walletBalance, transactions := SeedBalance, SeedTransactions;
      carConfig := SeedCarConfig(hour);
      soundEnabled, engineStarted := true, false;
      referralCode, referralCount := ReferralCode(referralText), 3;
      openingBalance, openingLedger, added := SeedBalance, SeedTransactions, [];
      new;
      assert transactions == added + openingLedger;
    }

    /** Any credentials succeed: the user is the demo profile with the given email. */
    method Login(email: string, password: string) returns (ok: bool)
      requires Valid()
      modifies this`user, this`isAuthenticated
      ensures Valid() && ok
      ensures Snapshot() == old(Snapshot()).(user := Some(User(DemoUserId, DemoUserName, email, DemoUserPhone)),
                                              isAuthenticated := true)
    {
      user := Some(User(DemoUserId, DemoUserName, email, DemoUserPhone));
      isAuthenticated := true;
      ok := true;
    }

    /** Sign-up always succeeds with the supplied profile; the password is dropped. */
    method Signup(name: string, email: string, phone: string, password: string) returns (ok: bool)
      requires Valid()
      modifies this`user, this`isAuthenticated
      ensures Valid() && ok
      ensures Snapshot() == old(Snapshot()).(user := Some(User(DemoUserId, name, email, phone)),
                                              isAuthenticated := true)
    {
      user := Some(User(DemoUserId, name, email, phone));
      isAuthenticated := true;
      ok := true;
    }

    method Logout()
      requires Valid()
      modifies this`user, this`isAuthenticated
      ensures Valid() && !isAuthenticated
      ensures Snapshot() == old(Snapshot()).(user := None, isAuthenticated := false)
    {
      user, isAuthenticated := None, false;
    }

    /** Creates an active AutoPilot ride, makes it current, prepends it to the
        history, debits its price and prepends the matching debit. There is
        no guard on empty endpoints or on the balance going negative. */
    method BookRide(from: string, to: string, rideId: string, txId: string, today: string, draw: real)
      requires Valid()
      modifies this`currentRide, this`rideHistory, this`walletBalance, this`transactions, this`added
      ensures Valid()
      ensures var ride := Ride(rideId, from, to, Active, today, RidePrice(draw) as real, AutoPilot);
        Snapshot() == old(Snapshot()).(
          currentRide := Some(ride),
          rideHistory := [ride] + old(rideHistory),
          walletBalance := old(walletBalance) - ride.price,
          transactions := [Transaction(txId, Debit, ride.price, RideDescription(from, to), today)]
                          + old(transactions))
    {
      var ride := Ride(rideId, from, to, Active, today, RidePrice(draw) as real, AutoPilot);
      var debit := Transaction(txId, Debit, ride.price, RideDescription(from, to), today);
      LedgerPrepend(walletBalance, transactions, added, debit, openingBalance, openingLedger);
      currentRide := Some(ride);
      rideHistory := [ride] + rideHistory;
      walletBalance := walletBalance - ride.price;
      transactions := [debit] + transactions;
      added := [debit] + added;
    }

    /** Marks every ride with this id cancelled and clears the current ride
        if it has this id. Wallet and ledger are untouched: no refund. */
    method CancelRide(id: string)
      requires Valid()
      modifies this`currentRide, this`rideHistory
      ensures Valid()
      ensures Snapshot() == old(Snapshot()).(
        currentRide := if old(currentRide).Some? && old(currentRide).value.id == id then None else old(currentRide),
        rideHistory := CancelMatching(old(rideHistory), id))
      ensures (forall r :: r in old(rideHistory) ==> r.id != id) ==> Snapshot() == old(Snapshot())
    {
      if (forall r :: r in rideHistory ==> r.id != id) {
        CancelUnknownIsIdentity(rideHistory, id);
        if currentRide.Some? {
          assert rideHistory[0] in rideHistory;
        }
      }
      if currentRide.Some? && currentRide.value.id == id {
        currentRide := None;
      }
      rideHistory := CancelMatching(rideHistory, id);
    }

    /** Credits the wallet and prepends an "Added funds" credit. The amount is
        not checked here (callers offer fixed positive amounts). */
    method AddFunds(amount: real, txId: string, today: string)
      requires Valid()
      modifies this`walletBalance, this`transactions, this`added
      ensures Valid()
      ensures Snapshot() == old(Snapshot()).(
        walletBalance := old(walletBalance) + amount,
        transactions := [Transaction(txId, Credit, amount, AddedFunds, today)] + old(transactions))
    {
      var credit := Transaction(txId, Credit, amount, AddedFunds, today);
      LedgerPrepend(walletBalance, transactions, added, credit, openingBalance, openingLedger);
      walletBalance := walletBalance + amount;
      transactions := [credit] + transactions;
      added := [credit] + added;
    }

    method UpdateCarConfig(patch: CarConfigPatch)
      requires Valid()
      modifies this`carConfig
      ensures Valid()
      ensures Snapshot() == old(Snapshot()).(carConfig := MergeConfig(old(carConfig), patch))
      ensures Partialize(Snapshot()) == Partialize(old(Snapshot()))
    {
      carConfig := MergeConfig(carConfig, patch);
    }

    method ToggleSound()
      requires Valid()
      modifies this`soundEnabled
      ensures Valid()
      ensures Snapshot() == old(Snapshot()).(soundEnabled := !old(soundEnabled))
    {
      soundEnabled := !soundEnabled;
    }

    /** A one-way flag: there is no action that clears it. */
    method StartEngine()
      requires Valid()
      modifies this`engineStarted
      ensures Valid()
      ensures Snapshot() == old(Snapshot()).(engineStarted := true)
      ensures Partialize(Snapshot()) == Partialize(old(Snapshot()))
    {
      engineStarted := true;
    }
  }

  // ---------------------------------------------------------------------
  // Client scenarios: what callers can conclude from the contracts alone

  /** Booking a ride and then cancelling it by its id clears the current
      ride and marks it cancelled, but the wallet stays debited. */
  method BookThenCancel(s: AppStore, from: string, to: string, rideId: string, txId: string,
                        today: string, draw: real)
    requires s.Valid()
    modifies s`currentRide, s`rideHistory, s`walletBalance, s`transactions, s`added
    ensures s.Valid()
    ensures s.currentRide == None
    ensures |s.rideHistory| == |old(s.rideHistory)| + 1 && s.rideHistory[0].status == Cancelled
    ensures s.walletBalance == old(s.walletBalance) - RidePrice(draw) as real
    ensures |s.transactions| == |old(s.transactions)| + 1
    ensures s.transactions[1..] == old(s.transactions) && s.transactions[0].kind == Debit
  {
    s.BookRide(from, to, rideId, txId, today, draw);
    s.CancelRide(rideId);
  }

  /** Logging out and in again restores authentication and leaves wallet,
      ledger and ride history as they were. */
  method LogoutThenLogin(s: AppStore, email: string, password: string)
    requires s.Valid()
    modifies s`user, s`isAuthenticated
    ensures s.Valid() && s.isAuthenticated && s.user.Some? && s.user.value.email == email
    ensures s.walletBalance == old(s.walletBalance)
    ensures s.transactions == old(s.transactions) && s.rideHistory == old(s.rideHistory)
  {
    s.Logout();
    var _ := s.Login(email, password);
  }

  /** Toggling the sound twice restores the whole state. */
  method ToggleSoundTwice(s: AppStore)
    requires s.Valid()
    modifies s`soundEnabled
    ensures s.Valid() && s.Snapshot() == old(s.Snapshot())
  {
    s.ToggleSound();
    s.ToggleSound();
  }

  /** Starting the engine a second time changes nothing. */
  method StartEngineTwice(s: AppStore)
    requires s.Valid()
    modifies s`engineStarted
    ensures s.Valid() && s.engineStarted
    ensures s.Snapshot() == old(s.Snapshot()).(engineStarted := true)
  {
    s.StartEngine();
    ghost var once := s.Snapshot();
    s.StartEngine();
    assert s.Snapshot() == once;
  }
}
