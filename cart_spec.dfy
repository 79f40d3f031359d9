/** The entities of `transform_cart_data` (dags/utils/transform.py) and the
    specification of what its single pass over the cart records computes.

    Every fold-shaped function here is defined on a prefix plus one more
    element, the way the loop sees its input; the reference definitions at the
    end (`Occurrences`, `IsFirstMax`) say the same things without any fold. */
module CartSpec {
  import opened Wrappers
  import opened Sequences

  type UserId = int
  type ProductId = int
  type Category = string
  /** A parsed `%Y-%m-%dT%H:%M:%S.%fZ` date; only its order matters here. */
  type Timestamp = nat

  /** One row of the carts frame, with its date still a string. */
  datatype CartRecord = CartRecord(userId: UserId, date: string, products: seq<ProductId>)

  /** A cart record whose date has been parsed. */
  datatype Cart = Cart(userId: UserId, cartDate: Timestamp, products: seq<ProductId>)

  /** The value stored in `user_data[user_id]`: the latest cart date and the
      per-category tally, whose insertion order is kept in `categories`. */
  datatype UserState = UserState(latestCartDate: Timestamp, categories: seq<Category>, counts: map<Category, nat>)

  /** One row of the final frame. */
  datatype Summary = Summary(userId: UserId, latestCartDate: Timestamp, topCategory: Option<Category>)

  /** `strptime` rejected the date of the record at `index`. */
  datatype Error = MalformedDate(index: nat, date: string)

  /** Python truthiness of a looked-up category: present and not the empty string. */
  predicate Truthy(category: Option<Category>) {
    category.Some? && category.value != ""
  }

  /** A well-formed per-user tally: key order without repeats, the same keys as
      the count map, and every count at least 1. */
  ghost predicate WellFormed(st: UserState) {
    NoDuplicates(st.categories) &&
    (forall c :: c in st.counts <==> c in st.categories) &&
    (forall c :: c in st.counts ==> st.counts[c] >= 1)
  }

  // ----- the fold over one cart's products -----

  /** The categories counted for one cart's products, in order: the truthy lookups. */
  function Resolved(lookup: ProductId -> Option<Category>, products: seq<ProductId>): seq<Category>
  {
    if products == [] then []
    else
      var rest := Resolved(lookup, products[..|products| - 1]);
      var category := lookup(products[|products| - 1]);
      if Truthy(category) then rest + [category.value] else rest
  }

  // ----- the fold over the cart records -----

  /** The user id of every cart, in input order. */
  function UserIds(carts: seq<Cart>): (ids: seq<UserId>)
    ensures |ids| == |carts|
    ensures forall i :: 0 <= i < |carts| ==> ids[i] == carts[i].userId
  {
    if carts == [] then [] else UserIds(carts[..|carts| - 1]) + [carts[|carts| - 1].userId]
  }

  /** The keys of `user_data` in insertion order: each user at first appearance. */
  function Users(carts: seq<Cart>): seq<UserId> {
    Distinct(UserIds(carts))
  }

  /** The dates of the carts of user `u`, in input order. */
  function Dates(carts: seq<Cart>, u: UserId): (ds: seq<Timestamp>)
    ensures ds != [] <==> u in UserIds(carts)
    ensures forall t :: t in ds <==> exists i :: 0 <= i < |carts| && carts[i].userId == u && carts[i].cartDate == t
  {
    if carts == [] then []
    else
      var n := |carts| - 1;
      var rest := Dates(carts[..n], u);
      assert forall i :: 0 <= i < n ==> carts[..n][i] == carts[i];
      assert UserIds(carts) == UserIds(carts[..n]) + [carts[n].userId];
      if carts[n].userId == u then rest + [carts[n].cartDate] else rest
  }

  /** The running maximum the loop keeps: a later date replaces the kept one
      only when it is strictly greater. */
  function MaxOf(ts: seq<Timestamp>): (m: Timestamp)
    requires ts != []
    ensures m in ts
    ensures forall t :: t in ts ==> t <= m
  {
    if |ts| == 1 then ts[0]
    else
      var n := |ts| - 1;
      var m := MaxOf(ts[..n]);
      assert ts == ts[..n] + [ts[n]];
      if ts[n] > m then ts[n] else m
  }

  /** Every category counted for user `u`, in the order the pass counts them. */
  function UserStream(lookup: ProductId -> Option<Category>, carts: seq<Cart>, u: UserId): seq<Category>
  {
    if carts == [] then []
    else
      var n := |carts| - 1;
      UserStream(lookup, carts[..n], u) + (if carts[n].userId == u then Resolved(lookup, carts[n].products) else [])
  }

  /** The category tally of a stream of counted categories. */
  function CountsOf(cs: seq<Category>): (counts: map<Category, nat>)
    ensures forall c :: c in counts <==> c in cs
    ensures forall c :: c in counts ==> counts[c] == multiset(cs)[c] >= 1
  {
    map c | c in cs :: multiset(cs)[c]
  }

  /** The reference value of `user_data[u]` after the pass over `carts`: the
      latest of the user's dates, the categories in the order first counted,
      and how often each was counted. */
  function StateOf(lookup: ProductId -> Option<Category>, carts: seq<Cart>, u: UserId): (st: UserState)
    requires u in UserIds(carts)
    ensures WellFormed(st)
  {
    var cs := UserStream(lookup, carts, u);
    UserState(MaxOf(Dates(carts, u)), Distinct(cs), CountsOf(cs))
  }

  // ----- the record loop as a fold -----

  /** Lines 42-45: a known category goes up by one, a new one is appended with count 1. */
  function CountCategory(st: UserState, c: Category): UserState {
    if c in st.counts then st.(counts := st.counts[c := st.counts[c] + 1])
    else st.(categories := st.categories + [c], counts := st.counts[c := 1])
  }

  /** Counting the categories `cs` one after the other. */
  function CountAll(st: UserState, cs: seq<Category>): UserState {
    if cs == [] then st else CountCategory(CountAll(st, cs[..|cs| - 1]), cs[|cs| - 1])
  }

  /** Counting a category keeps a tally well formed. */
  lemma CountCategoryWellFormed(st: UserState, c: Category)
    requires WellFormed(st)
    ensures WellFormed(CountCategory(st, c))
  {
  }

  /** Counting any categories keeps a tally well formed. */
  lemma {:induction false} CountAllWellFormed(st: UserState, cs: seq<Category>)
    requires WellFormed(st)
    ensures WellFormed(CountAll(st, cs))
  {
    if cs != [] {
      CountAllWellFormed(st, cs[..|cs| - 1]);
      CountCategoryWellFormed(CountAll(st, cs[..|cs| - 1]), cs[|cs| - 1]);
    }
  }

  /** Counting categories never touches the entry's latest cart date. */
  lemma {:induction false} CountAllKeepsDate(st: UserState, cs: seq<Category>)
    ensures CountAll(st, cs).latestCartDate == st.latestCartDate
  {
    if cs != [] {
      CountAllKeepsDate(st, cs[..|cs| - 1]);
    }
  }

  /** Lines 29-36: the entry of a user seen for the first time, or the old
      entry with its date replaced when the new one is strictly later. */
  function Refresh(states: map<UserId, UserState>, cart: Cart): UserState {
    if cart.userId !in states then UserState(cart.cartDate, [], map[])
    else
      var known := states[cart.userId];
      if cart.cartDate > known.latestCartDate then known.(latestCartDate := cart.cartDate) else known
  }

  /** One iteration of the record loop (lines 29-45) on a parsed record: only
      the entry of the cart's user is created or changed. */
  function ObserveCart(lookup: ProductId -> Option<Category>, states: map<UserId, UserState>, cart: Cart): (r: map<UserId, UserState>)
    ensures r.Keys == states.Keys + {cart.userId}
    ensures forall u :: u in states && u != cart.userId ==> r[u] == states[u]
  {
    states[cart.userId := CountAll(Refresh(states, cart), Resolved(lookup, cart.products))]
  }

  /** `user_data` after the record loop over `carts`: one entry per user that has a cart. */
  function States(lookup: ProductId -> Option<Category>, carts: seq<Cart>): (states: map<UserId, UserState>)
    ensures forall u :: u in states <==> u in UserIds(carts)
  {
    if carts == [] then map[]
    else
      var n := |carts| - 1;
      assert UserIds(carts) == UserIds(carts[..n]) + [carts[n].userId];
      ObserveCart(lookup, States(lookup, carts[..n]), carts[n])
  }

  /** Every entry the record loop builds is a well-formed tally. */
  lemma {:induction false} StatesWellFormed(lookup: ProductId -> Option<Category>, carts: seq<Cart>)
    ensures forall u :: u in States(lookup, carts) ==> WellFormed(States(lookup, carts)[u])
  {
    if carts != [] {
      var n := |carts| - 1;
      var before, cart := States(lookup, carts[..n]), carts[n];
      StatesWellFormed(lookup, carts[..n]);
      var entry := Refresh(before, cart);
      assert WellFormed(entry) by {
        if cart.userId in before {
          assert WellFormed(before[cart.userId]);
        }
      }
      CountAllWellFormed(entry, Resolved(lookup, cart.products));
    }
  }

  // ----- finalisation -----

  /** `max(keys, key=counts.get)`: the index of the first key whose count no
      other key exceeds (a later key replaces the kept one only when its count
      is strictly greater). */
  function FirstMaxIndex(keys: seq<Category>, counts: map<Category, nat>): (j: nat)
    requires keys != []
    requires forall k :: k in keys ==> k in counts
    ensures j < |keys|
  {
    if |keys| == 1 then 0
    else
      var n := |keys| - 1;
      var best := FirstMaxIndex(keys[..n], counts);
      if counts[keys[n]] > counts[keys[best]] then n else best
  }

  /** `top_category`: the first maximal category, or `None` for an empty tally. */
  function TopCategory(keys: seq<Category>, counts: map<Category, nat>): Option<Category>
    requires forall k :: k in keys ==> k in counts
  {
    if keys != [] then Some(keys[FirstMaxIndex(keys, counts)]) else None
  }

  /** Every key of the tally has a count, so `max(counts, key=counts.get)` is defined. */
  predicate Finalizable(st: UserState) {
    forall c :: c in st.categories ==> c in st.counts
  }

  /** The output row built from one entry of `user_data`. */
  function Summarize(u: UserId, st: UserState): Summary
    requires Finalizable(st)
  {
    Summary(u, st.latestCartDate, TopCategory(st.categories, st.counts))
  }

  /** The rows for the entries `users` of `states`, in that order. */
  function Rows(users: seq<UserId>, states: map<UserId, UserState>): (rows: seq<Summary>)
    requires forall u :: u in users ==> u in states && Finalizable(states[u])
    ensures |rows| == |users|
    ensures forall k :: 0 <= k < |users| ==> rows[k] == Summarize(users[k], states[users[k]])
  {
    if users == [] then []
    else
      var n := |users| - 1;
      Rows(users[..n], states) + [Summarize(users[n], states[users[n]])]
  }

  /** The rows of a run whose every date parsed: one per user, in first-seen order. */
  function Summaries(lookup: ProductId -> Option<Category>, carts: seq<Cart>): (rows: seq<Summary>)
    ensures |rows| == |Users(carts)|
    ensures forall k :: 0 <= k < |rows| ==> rows[k].userId == Users(carts)[k]
  {
    StatesWellFormed(lookup, carts);
    Rows(Users(carts), States(lookup, carts))
  }

  // ----- parsing and the whole run -----

  /** Parses every date in input order; the first date `parse` rejects ends the run. */
  function ParseAll(parse: string -> Option<Timestamp>, records: seq<CartRecord>): (r: Result<seq<Cart>, Error>)
    ensures r.Success? <==> forall i :: 0 <= i < |records| ==> parse(records[i].date).Some?
    ensures r.Success? ==> (
      |r.value| == |records| &&
      forall i :: 0 <= i < |records| ==>
        r.value[i] == Cart(records[i].userId, parse(records[i].date).value, records[i].products))
    ensures r.Failure? ==> (
      r.error.index < |records| && r.error.date == records[r.error.index].date &&
      parse(records[r.error.index].date).None? &&
      forall i :: 0 <= i < r.error.index ==> parse(records[i].date).Some?)
  {
    if records == [] then Success([])
    else
      var n := |records| - 1;
      assert forall i :: 0 <= i < n ==> records[..n][i] == records[i];
      match ParseAll(parse, records[..n])
      case Failure(e) => Failure(e)
      case Success(carts) =>
        var cartDate := parse(records[n].date);
        if cartDate.None? then Failure(MalformedDate(n, records[n].date))
        else Success(carts + [Cart(records[n].userId, cartDate.value, records[n].products)])
  }

  /** `transform_cart_data`: the rows, or the error that aborted the run with none. */
  function Transform(parse: string -> Option<Timestamp>, lookup: ProductId -> Option<Category>, records: seq<CartRecord>): (r: Result<seq<Summary>, Error>)
    ensures r.Failure? <==> exists i :: 0 <= i < |records| && parse(records[i].date).None?
    ensures r.Failure? ==> r.error.index < |records| && parse(records[r.error.index].date).None?
  {
    match ParseAll(parse, records)
    case Failure(e) => Failure(e)
    case Success(carts) => Success(Summaries(lookup, carts))
  }

  // ----- reference definitions -----

  /** How many products of `products` the lookup resolves to `c`. */
  function CountIn(lookup: ProductId -> Option<Category>, products: seq<ProductId>, c: Category): nat {
    if products == [] then 0
    else (if lookup(products[0]) == Some(c) then 1 else 0) + CountIn(lookup, products[1..], c)
  }

  /** How many product occurrences, over all carts of user `u`, resolve to `c`. */
  function Occurrences(lookup: ProductId -> Option<Category>, carts: seq<Cart>, u: UserId, c: Category): nat {
    if carts == [] then 0
    else (if carts[0].userId == u then CountIn(lookup, carts[0].products, c) else 0) + Occurrences(lookup, carts[1..], u, c)
  }

  /** `c` is the most frequent category of the stream `cs`, and among the
      equally frequent ones the one counted first. */
  ghost predicate IsFirstMax(cs: seq<Category>, c: Category) {
    c in cs &&
    (forall d :: d in cs ==> multiset(cs)[d] <= multiset(cs)[c]) &&
    (forall d :: d in cs && d != c && multiset(cs)[d] == multiset(cs)[c] ==> IndexOf(cs, c) < IndexOf(cs, d))
  }
}
