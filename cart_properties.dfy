/** What `transform_cart_data` (dags/utils/transform.py) promises about its
    rows, proved of the specification in `CartSpec`. */
module CartProperties {
  import opened Wrappers
  import opened Sequences
  import opened CartSpec

  // ----- one more record -----

  /** Processing one more cart extends each per-user sequence by that cart's part only. */
  lemma ObserveSnoc(lookup: ProductId -> Option<Category>, carts: seq<Cart>, cart: Cart, u: UserId)
    ensures UserIds(carts + [cart]) == UserIds(carts) + [cart.userId]
    ensures Dates(carts + [cart], u) == Dates(carts, u) + (if cart.userId == u then [cart.cartDate] else [])
    ensures UserStream(lookup, carts + [cart], u) ==
      UserStream(lookup, carts, u) + (if cart.userId == u then Resolved(lookup, cart.products) else [])
  {
    assert (carts + [cart])[..|carts|] == carts;
  }

  /** One more product extends the resolved categories by its category when that is truthy. */
  lemma ResolvedSnoc(lookup: ProductId -> Option<Category>, products: seq<ProductId>, i: nat)
    requires i < |products|
    ensures Resolved(lookup, products[..i + 1]) ==
      Resolved(lookup, products[..i]) + (if Truthy(lookup(products[i])) then [lookup(products[i]).value] else [])
  {
    assert products[..i + 1][..i] == products[..i];
  }

  /** The running maximum keeps the old value unless the new one is strictly greater. */
  lemma MaxOfSnoc(ts: seq<Timestamp>, t: Timestamp)
    requires ts != []
    ensures MaxOf(ts + [t]) == if t > MaxOf(ts) then t else MaxOf(ts)
  {
    assert (ts + [t])[..|ts|] == ts;
  }

  /** Counting one more category: a new key starts at 1, a known key goes up by 1. */
  lemma CountsSnoc(cs: seq<Category>, c: Category)
    ensures CountsOf(cs + [c]) == CountsOf(cs)[c := if c in cs then CountsOf(cs)[c] + 1 else 1]
  {
    assert multiset(cs + [c]) == multiset(cs) + multiset{c};
  }

  /** Counting one more category after `cs` is one more `CountCategory` step. */
  lemma CountAllSnoc(st: UserState, cs: seq<Category>, c: Category)
    ensures CountAll(st, cs + [c]) == CountCategory(CountAll(st, cs), c)
  {
    assert (cs + [c])[..|cs|] == cs;
  }

  /** One more cart adds its user to the end of the key order, unless already there. */
  lemma UsersSnoc(carts: seq<Cart>, cart: Cart)
    ensures Users(carts + [cart]) ==
      if cart.userId in UserIds(carts) then Users(carts) else Users(carts) + [cart.userId]
  {
    assert (carts + [cart])[..|carts|] == carts;
    DistinctSnoc(UserIds(carts), cart.userId);
  }

  /** One more cart is one more iteration of the record loop. */
  lemma StatesSnoc(lookup: ProductId -> Option<Category>, carts: seq<Cart>, cart: Cart)
    ensures States(lookup, carts + [cart]) == ObserveCart(lookup, States(lookup, carts), cart)
  {
    assert (carts + [cart])[..|carts|] == carts;
  }

  /** A user with no cart yet has counted nothing. */
  lemma {:induction false} NoCartsNoStream(lookup: ProductId -> Option<Category>, carts: seq<Cart>, u: UserId)
    requires u !in UserIds(carts)
    ensures UserStream(lookup, carts, u) == []
  {
    if carts != [] {
      var n := |carts| - 1;
      assert carts == carts[..n] + [carts[n]];
      ObserveSnoc(lookup, carts[..n], carts[n], u);
      NoCartsNoStream(lookup, carts[..n], u);
    }
  }

  /** Processing a record of one user leaves every other user's state as it was. */
  lemma OtherUsersUnchanged(lookup: ProductId -> Option<Category>, carts: seq<Cart>, cart: Cart, v: UserId)
    requires v != cart.userId && v in UserIds(carts)
    ensures v in UserIds(carts + [cart])
    ensures StateOf(lookup, carts + [cart], v) == StateOf(lookup, carts, v)
  {
    ObserveSnoc(lookup, carts, cart, v);
    assert Dates(carts + [cart], v) == Dates(carts, v);
    assert UserStream(lookup, carts + [cart], v) == UserStream(lookup, carts, v);
  }

  /** The state of the user whose record is processed: created from this record
      when the user is new, otherwise the latest date and the tally updated. */
  lemma ObservedUserState(lookup: ProductId -> Option<Category>, carts: seq<Cart>, cart: Cart)
    ensures cart.userId in UserIds(carts + [cart])
    ensures cart.userId !in UserIds(carts) ==>
      var cs := Resolved(lookup, cart.products);
      StateOf(lookup, carts + [cart], cart.userId) == UserState(cart.cartDate, Distinct(cs), CountsOf(cs))
    ensures cart.userId in UserIds(carts) ==>
      var before := StateOf(lookup, carts, cart.userId);
      var cs := UserStream(lookup, carts, cart.userId) + Resolved(lookup, cart.products);
      StateOf(lookup, carts + [cart], cart.userId) ==
        UserState(if cart.cartDate > before.latestCartDate then cart.cartDate else before.latestCartDate,
                  Distinct(cs), CountsOf(cs))
  {
    var u := cart.userId;
    ObserveSnoc(lookup, carts, cart, u);
    if u !in UserIds(carts) {
      NoCartsNoStream(lookup, carts, u);
      assert Dates(carts, u) == [];
      assert [] + Resolved(lookup, cart.products) == Resolved(lookup, cart.products);
    } else {
      MaxOfSnoc(Dates(carts, u), cart.cartDate);
    }
  }

  // ----- the fold computes the reference state -----

  /** Counting one more category `c` keeps the key order of the stream `a + [c]`. */
  lemma CountCategoryKeys(st: UserState, a: seq<Category>, c: Category)
    requires st.categories == Distinct(a) && st.counts == CountsOf(a)
    ensures CountCategory(st, c).categories == Distinct(a + [c])
  {
    DistinctSnoc(a, c);
  }

  /** Counting one more category `c` gives the counts of the stream `a + [c]`. */
  lemma CountCategoryCounts(st: UserState, a: seq<Category>, c: Category)
    requires st.counts == CountsOf(a)
    ensures CountCategory(st, c).counts == CountsOf(a + [c])
  {
    CountsSnoc(a, c);
  }

  /** Counting `cs` into the counts of the stream `a` gives the counts of `a + cs`. */
  lemma {:induction false} CountAllCounts(st: UserState, a: seq<Category>, cs: seq<Category>)
    requires st.counts == CountsOf(a)
    ensures CountAll(st, cs).counts == CountsOf(a + cs)
  {
    if cs == [] {
      assert a + cs == a;
    } else {
      var n := |cs| - 1;
      var p, c := cs[..n], cs[n];
      assert cs == p + [c];
      CountAllCounts(st, a, p);
      var mid := CountAll(st, p);
      assert CountAll(st, cs) == CountCategory(mid, c);
      CountCategoryCounts(mid, a + p, c);
      assert (a + p) + [c] == a + cs;
    }
  }

  /** Counting `cs` into the tally of the stream `a` gives the key order of `a + cs`. */
  lemma {:induction false} CountAllKeys(st: UserState, a: seq<Category>, cs: seq<Category>)
    requires st.categories == Distinct(a) && st.counts == CountsOf(a)
    ensures CountAll(st, cs).categories == Distinct(a + cs)
  {
    if cs == [] {
      assert a + cs == a;
    } else {
      var n := |cs| - 1;
      var p, c := cs[..n], cs[n];
      assert cs == p + [c];
      CountAllKeys(st, a, p);
      CountAllCounts(st, a, p);
      var mid := CountAll(st, p);
      assert CountAll(st, cs) == CountCategory(mid, c);
      CountCategoryKeys(mid, a + p, c);
      assert (a + p) + [c] == a + cs;
    }
  }

  /** An empty stream has an empty tally. */
  lemma NothingCounted()
    ensures Distinct<Category>([]) == [] && CountsOf([]) == map[]
  {
    assert CountsOf([]).Keys == {};
  }

  /** The entry the record loop creates for a user seen for the first time is
      the reference state of that user. */
  lemma NewEntryMatches(lookup: ProductId -> Option<Category>, states: map<UserId, UserState>, carts: seq<Cart>, cart: Cart)
    requires cart.userId !in states && cart.userId !in UserIds(carts)
    ensures cart.userId in UserIds(carts + [cart])
    ensures CountAll(Refresh(states, cart), Resolved(lookup, cart.products)) == StateOf(lookup, carts + [cart], cart.userId)
  {
    var entry := Refresh(states, cart);
    var added := Resolved(lookup, cart.products);
    ObservedUserState(lookup, carts, cart);
    NothingCounted();
    assert [] + added == added;
    CountAllCounts(entry, [], added);
    CountAllKeys(entry, [], added);
    CountAllKeepsDate(entry, added);
  }

  /** The entry the record loop updates for a known user is the reference
      state of that user, given that the old entry was. */
  lemma KnownEntryMatches(lookup: ProductId -> Option<Category>, states: map<UserId, UserState>, carts: seq<Cart>, cart: Cart)
    requires cart.userId in states && cart.userId in UserIds(carts)
    requires states[cart.userId] == StateOf(lookup, carts, cart.userId)
    ensures cart.userId in UserIds(carts + [cart])
    ensures CountAll(Refresh(states, cart), Resolved(lookup, cart.products)) == StateOf(lookup, carts + [cart], cart.userId)
  {
    var entry := Refresh(states, cart);
    var added := Resolved(lookup, cart.products);
    var base := UserStream(lookup, carts, cart.userId);
    ObservedUserState(lookup, carts, cart);
    CountAllCounts(entry, base, added);
    CountAllKeys(entry, base, added);
    CountAllKeepsDate(entry, added);
  }

  /** The record loop builds, for every user, exactly the reference state:
      the latest date, the categories in first-counted order, and their counts. */
  lemma {:induction false} StatesMatchReference(lookup: ProductId -> Option<Category>, carts: seq<Cart>, u: UserId)
    requires u in UserIds(carts)
    ensures u in States(lookup, carts) && States(lookup, carts)[u] == StateOf(lookup, carts, u)
  {
    var n := |carts| - 1;
    var p, cart := carts[..n], carts[n];
    assert carts == p + [cart];
    ObserveSnoc(lookup, p, cart, u);
    var before := States(lookup, p);
    if u == cart.userId {
      if u in UserIds(p) {
        StatesMatchReference(lookup, p, u);
        KnownEntryMatches(lookup, before, p, cart);
      } else {
        NewEntryMatches(lookup, before, p, cart);
      }
    } else {
      StatesMatchReference(lookup, p, u);
      OtherUsersUnchanged(lookup, p, cart, u);
    }
  }

  // ----- one row per user, in first-seen order -----

  /** Every user in the key order has an entry whose keys all have a count. */
  lemma StatesFinalizable(lookup: ProductId -> Option<Category>, carts: seq<Cart>)
    ensures forall u :: u in Users(carts) ==>
      u in States(lookup, carts) && Finalizable(States(lookup, carts)[u])
  {
    StatesWellFormed(lookup, carts);
  }

  /** One more user adds that user's row at the end. */
  lemma RowsSnoc(users: seq<UserId>, states: map<UserId, UserState>, i: nat)
    requires i < |users|
    requires forall u :: u in users ==> u in states && Finalizable(states[u])
    ensures Rows(users[..i + 1], states) == Rows(users[..i], states) + [Summarize(users[i], states[users[i]])]
  {
    assert users[..i + 1][..i] == users[..i];
  }

  /** Every user of the input has exactly one row and no other rows exist. */
  lemma OneRowPerUser(lookup: ProductId -> Option<Category>, carts: seq<Cart>)
    ensures var rows := Summaries(lookup, carts);
      (forall u :: u in UserIds(carts) <==> exists k :: 0 <= k < |rows| && rows[k].userId == u) &&
      (forall k, l :: 0 <= k < l < |rows| ==> rows[k].userId != rows[l].userId)
  {
    var rows, users := Summaries(lookup, carts), Users(carts);
    forall u | u in UserIds(carts)
      ensures exists k :: 0 <= k < |rows| && rows[k].userId == u
    {
      var k := IndexOf(users, u);
      assert rows[k].userId == u;
    }
  }

  /** Of two rows, the earlier one belongs to the user who appears first in the input. */
  lemma RowPairInOrder(lookup: ProductId -> Option<Category>, carts: seq<Cart>, k: nat, l: nat)
    requires k < l < |Summaries(lookup, carts)|
    ensures Summaries(lookup, carts)[k].userId in UserIds(carts)
    ensures Summaries(lookup, carts)[l].userId in UserIds(carts)
    ensures IndexOf(UserIds(carts), Summaries(lookup, carts)[k].userId) <
            IndexOf(UserIds(carts), Summaries(lookup, carts)[l].userId)
  {
    DistinctFollowsFirstOccurrence(UserIds(carts), k, l);
  }

  /** The rows follow the order in which the users first appear in the input. */
  lemma RowsFollowFirstSeenOrder(lookup: ProductId -> Option<Category>, carts: seq<Cart>)
    ensures var rows := Summaries(lookup, carts);
      forall k, l :: 0 <= k < l < |rows| ==>
        rows[k].userId in UserIds(carts) && rows[l].userId in UserIds(carts) &&
        IndexOf(UserIds(carts), rows[k].userId) < IndexOf(UserIds(carts), rows[l].userId)
  {
    forall k: nat, l: nat | k < l < |Summaries(lookup, carts)|
      ensures Summaries(lookup, carts)[k].userId in UserIds(carts)
      ensures Summaries(lookup, carts)[l].userId in UserIds(carts)
      ensures IndexOf(UserIds(carts), Summaries(lookup, carts)[k].userId) <
              IndexOf(UserIds(carts), Summaries(lookup, carts)[l].userId)
    {
      RowPairInOrder(lookup, carts, k, l);
    }
  }

  /** Each row is the summary of that user's reference state. */
  lemma RowsSummarizeStates(lookup: ProductId -> Option<Category>, carts: seq<Cart>)
    ensures var rows := Summaries(lookup, carts);
      forall k :: 0 <= k < |rows| ==>
        rows[k].userId in UserIds(carts) &&
        rows[k] == Summarize(rows[k].userId, StateOf(lookup, carts, rows[k].userId))
  {
    var rows, users := Summaries(lookup, carts), Users(carts);
    forall k | 0 <= k < |rows|
      ensures rows[k].userId in UserIds(carts)
      ensures rows[k] == Summarize(rows[k].userId, StateOf(lookup, carts, rows[k].userId))
    {
      StatesMatchReference(lookup, carts, users[k]);
    }
  }

  // ----- latest cart date -----

  /** A row's `latest_cart_date` is the date of one of that user's records and
      no record of that user is later. */
  lemma LatestCartDateIsMax(lookup: ProductId -> Option<Category>, carts: seq<Cart>, u: UserId)
    requires u in UserIds(carts)
    ensures var t := StateOf(lookup, carts, u).latestCartDate;
      (exists i :: 0 <= i < |carts| && carts[i].userId == u && carts[i].cartDate == t) &&
      (forall i :: 0 <= i < |carts| && carts[i].userId == u ==> carts[i].cartDate <= t)
  {
    var ds := Dates(carts, u);
    forall i | 0 <= i < |carts| && carts[i].userId == u
      ensures carts[i].cartDate <= MaxOf(ds)
    {
      assert carts[i].cartDate in ds;
    }
  }

  // ----- category counts -----

  lemma {:induction false} CountInSnoc(lookup: ProductId -> Option<Category>, products: seq<ProductId>, p: ProductId, c: Category)
    ensures CountIn(lookup, products + [p], c) == CountIn(lookup, products, c) + (if lookup(p) == Some(c) then 1 else 0)
  {
    if products != [] {
      assert (products + [p])[1..] == products[1..] + [p];
      CountInSnoc(lookup, products[1..], p, c);
    }
  }

  lemma {:induction false} OccurrencesSnoc(lookup: ProductId -> Option<Category>, carts: seq<Cart>, cart: Cart, u: UserId, c: Category)
    ensures Occurrences(lookup, carts + [cart], u, c) ==
      Occurrences(lookup, carts, u, c) + (if cart.userId == u then CountIn(lookup, cart.products, c) else 0)
  {
    if carts != [] {
      assert (carts + [cart])[1..] == carts[1..] + [cart];
      OccurrencesSnoc(lookup, carts[1..], cart, u, c);
    }
  }

  /** For a non-empty category, the resolved categories of a cart hold it once
      per product that the lookup resolves to it. */
  lemma {:induction false} ResolvedCount(lookup: ProductId -> Option<Category>, products: seq<ProductId>, c: Category)
    requires c != ""
    ensures multiset(Resolved(lookup, products))[c] == CountIn(lookup, products, c)
  {
    if products != [] {
      var n := |products| - 1;
      assert products == products[..n] + [products[n]];
      ResolvedCount(lookup, products[..n], c);
      CountInSnoc(lookup, products[..n], products[n], c);
    }
  }

  /** A user's count for a non-empty category `c` is the number of that user's
      product occurrences that resolve to `c`. */
  lemma {:induction false} StreamCount(lookup: ProductId -> Option<Category>, carts: seq<Cart>, u: UserId, c: Category)
    requires c != ""
    ensures multiset(UserStream(lookup, carts, u))[c] == Occurrences(lookup, carts, u, c)
  {
    if carts != [] {
      var n := |carts| - 1;
      var last := carts[n];
      assert carts == carts[..n] + [last];
      StreamCount(lookup, carts[..n], u, c);
      ObserveSnoc(lookup, carts[..n], last, u);
      OccurrencesSnoc(lookup, carts[..n], last, u, c);
      if last.userId == u {
        ResolvedCount(lookup, last.products, c);
        assert multiset(UserStream(lookup, carts, u)) ==
          multiset(UserStream(lookup, carts[..n], u)) + multiset(Resolved(lookup, last.products));
      } else {
        assert UserStream(lookup, carts, u) == UserStream(lookup, carts[..n], u);
      }
    }
  }

  /** The empty string is never counted: it is falsy. */
  lemma {:induction false} ResolvedTruthy(lookup: ProductId -> Option<Category>, products: seq<ProductId>)
    ensures "" !in Resolved(lookup, products)
  {
    if products != [] {
      ResolvedTruthy(lookup, products[..|products| - 1]);
    }
  }

  /** No user's stream of counted categories holds the empty string. */
  lemma {:induction false} StreamTruthy(lookup: ProductId -> Option<Category>, carts: seq<Cart>, u: UserId)
    ensures "" !in UserStream(lookup, carts, u)
  {
    if carts != [] {
      var n := |carts| - 1;
      StreamTruthy(lookup, carts[..n], u);
      ResolvedTruthy(lookup, carts[n].products);
    }
  }

  /** The tally of a user holds exactly the truthy categories that some product
      of theirs resolved to, each with its number of occurrences. */
  lemma CountsAreOccurrences(lookup: ProductId -> Option<Category>, carts: seq<Cart>, u: UserId, c: Category)
    requires u in UserIds(carts)
    ensures var counts := StateOf(lookup, carts, u).counts;
      (c in counts <==> c != "" && Occurrences(lookup, carts, u, c) > 0) &&
      (c in counts ==> counts[c] == Occurrences(lookup, carts, u, c))
  {
    if c != "" {
      StreamCount(lookup, carts, u, c);
    } else {
      StreamTruthy(lookup, carts, u);
    }
  }

  /** The stream of a prefix of the input is a prefix of the whole stream. */
  lemma {:induction false} StreamPrefix(lookup: ProductId -> Option<Category>, carts: seq<Cart>, n: nat, u: UserId)
    requires n <= |carts|
    ensures UserStream(lookup, carts[..n], u) <= UserStream(lookup, carts, u)
  {
    if n < |carts| {
      var m := |carts| - 1;
      assert carts == carts[..m] + [carts[m]];
      assert carts[..m][..n] == carts[..n];
      StreamPrefix(lookup, carts[..m], n, u);
      ObserveSnoc(lookup, carts[..m], carts[m], u);
    } else {
      assert carts[..n] == carts;
    }
  }

  /** A category occurs in the stream of the whole input at least as often as
      in the stream of a prefix of it. */
  lemma StreamCountGrows(lookup: ProductId -> Option<Category>, carts: seq<Cart>, n: nat, u: UserId, c: Category)
    requires n <= |carts|
    ensures multiset(UserStream(lookup, carts[..n], u))[c] <= multiset(UserStream(lookup, carts, u))[c]
  {
    var before, after := UserStream(lookup, carts[..n], u), UserStream(lookup, carts, u);
    StreamPrefix(lookup, carts, n, u);
    assert after == before + after[|before|..];
    assert multiset(after) == multiset(before) + multiset(after[|before|..]);
  }

  /** Counts only grow: a category counted after a prefix of the input is still
      counted after the whole input, at least as often. */
  lemma CountsOnlyIncrease(lookup: ProductId -> Option<Category>, carts: seq<Cart>, n: nat, u: UserId, c: Category)
    requires n <= |carts| && u in UserIds(carts[..n])
    requires c in StateOf(lookup, carts[..n], u).counts
    ensures u in UserIds(carts)
    ensures c in StateOf(lookup, carts, u).counts
    ensures StateOf(lookup, carts[..n], u).counts[c] <= StateOf(lookup, carts, u).counts[c]
  {
    var i := IndexOf(UserIds(carts[..n]), u);
    assert carts[..n][i] == carts[i];
    StreamCountGrows(lookup, carts, n, u, c);
  }

  // ----- dates that do not parse -----

  /** One more record whose date parses extends the parsed carts by that record. */
  lemma ParseAllSnoc(parse: string -> Option<Timestamp>, records: seq<CartRecord>, i: nat, carts: seq<Cart>, t: Timestamp)
    requires i < |records| && parse(records[i].date) == Some(t)
    requires ParseAll(parse, records[..i]) == Success(carts)
    ensures ParseAll(parse, records[..i + 1]) == Success(carts + [Cart(records[i].userId, t, records[i].products)])
  {
    assert records[..i + 1][..i] == records[..i];
  }

  /** The run fails with the first record whose date does not parse, whatever
      the later records hold. */
  lemma ParseStopsAtFirstFailure(parse: string -> Option<Timestamp>, records: seq<CartRecord>, i: nat)
    requires i < |records| && parse(records[i].date).None?
    requires ParseAll(parse, records[..i]).Success?
    ensures ParseAll(parse, records) == Failure(MalformedDate(i, records[i].date))
  {
    assert forall k :: 0 <= k < i ==> records[..i][k] == records[k];
    var r := ParseAll(parse, records);
    assert r.Failure?;
    assert !(r.error.index < i);
    assert !(r.error.index > i);
  }

  /** A run whose every date parses yields the rows of the parsed carts. */
  lemma TransformOfParsed(parse: string -> Option<Timestamp>, lookup: ProductId -> Option<Category>, records: seq<CartRecord>, carts: seq<Cart>)
    requires ParseAll(parse, records) == Success(carts)
    ensures Transform(parse, lookup, records) == Success(Summaries(lookup, carts))
  {
  }

  /** A run that does not abort yields no rows exactly when it was given no
      records. */
  lemma NoRowsIffNoRecords(parse: string -> Option<Timestamp>, lookup: ProductId -> Option<Category>, records: seq<CartRecord>)
    requires Transform(parse, lookup, records).Success?
    ensures Transform(parse, lookup, records).value == [] <==> records == []
  {
    var carts := ParseAll(parse, records).value;
    if records != [] {
      assert UserIds(carts)[0] == carts[0].userId;
      assert carts[0].userId in Users(carts);
    }
  }

  // ----- lookups that fail -----

  /** The lookup with every falsy answer (a failed request, a missing or empty
      category) turned into `None`. */
  function Normalized(lookup: ProductId -> Option<Category>): ProductId -> Option<Category> {
    p => if Truthy(lookup(p)) then lookup(p) else None
  }

  lemma {:induction false} ResolvedNormalized(lookup: ProductId -> Option<Category>, products: seq<ProductId>)
    ensures Resolved(Normalized(lookup), products) == Resolved(lookup, products)
  {
    if products != [] {
      ResolvedNormalized(lookup, products[..|products| - 1]);
    }
  }

  lemma {:induction false} StreamNormalized(lookup: ProductId -> Option<Category>, carts: seq<Cart>, u: UserId)
    ensures UserStream(Normalized(lookup), carts, u) == UserStream(lookup, carts, u)
  {
    if carts != [] {
      var n := |carts| - 1;
      StreamNormalized(lookup, carts[..n], u);
      ResolvedNormalized(lookup, carts[n].products);
    }
  }

  /** A failed or empty lookup contributes nothing and does not stop the run:
      the result is the same as if it had answered `None`. */
  lemma LookupFailuresIgnored(parse: string -> Option<Timestamp>, lookup: ProductId -> Option<Category>, records: seq<CartRecord>)
    ensures Transform(parse, lookup, records) == Transform(parse, Normalized(lookup), records)
  {
    match ParseAll(parse, records)
    case Failure(_) =>
    case Success(carts) =>
      var rows, rows' := Summaries(lookup, carts), Summaries(Normalized(lookup), carts);
      forall k | 0 <= k < |rows|
        ensures rows[k] == rows'[k]
      {
        StatesMatchReference(lookup, carts, Users(carts)[k]);
        StatesMatchReference(Normalized(lookup), carts, Users(carts)[k]);
        StreamNormalized(lookup, carts, Users(carts)[k]);
      }
      assert rows == rows';
  }

  // ----- top category -----

  /** A user's stream is empty exactly when none of their products resolved to
      a truthy category. */
  lemma {:induction false} ResolvedEmpty(lookup: ProductId -> Option<Category>, products: seq<ProductId>)
    ensures Resolved(lookup, products) == [] <==> forall k :: 0 <= k < |products| ==> !Truthy(lookup(products[k]))
  {
    if products != [] {
      var n := |products| - 1;
      ResolvedEmpty(lookup, products[..n]);
      assert forall k :: 0 <= k < n ==> products[..n][k] == products[k];
    }
  }

  lemma {:induction false} StreamEmpty(lookup: ProductId -> Option<Category>, carts: seq<Cart>, u: UserId)
    ensures UserStream(lookup, carts, u) == [] <==>
      forall i, k :: 0 <= i < |carts| && carts[i].userId == u && 0 <= k < |carts[i].products| ==>
        !Truthy(lookup(carts[i].products[k]))
  {
    if carts != [] {
      var n := |carts| - 1;
      StreamEmpty(lookup, carts[..n], u);
      ResolvedEmpty(lookup, carts[n].products);
      assert forall i :: 0 <= i < n ==> carts[..n][i] == carts[i];
    }
  }

  /** `FirstMaxIndex` picks a key whose count no other key exceeds, and every
      key before it has a strictly smaller count. */
  lemma {:induction false} FirstMaxIndexIsFirstMax(keys: seq<Category>, counts: map<Category, nat>)
    requires keys != []
    requires forall k :: k in keys ==> k in counts
    ensures var j := FirstMaxIndex(keys, counts);
      (forall i :: 0 <= i < |keys| ==> counts[keys[i]] <= counts[keys[j]]) &&
      (forall i :: 0 <= i < j ==> counts[keys[i]] < counts[keys[j]])
  {
    if |keys| > 1 {
      var n := |keys| - 1;
      FirstMaxIndexIsFirstMax(keys[..n], counts);
      assert forall i :: 0 <= i < n ==> keys[..n][i] == keys[i];
    }
  }

  /** `max(counts, key=counts.get)` over a tally built from the stream `cs`
      picks the most frequent category, and on a tie the one counted first. */
  lemma TopOfStream(cs: seq<Category>)
    ensures var top := TopCategory(Distinct(cs), CountsOf(cs));
      (top.None? <==> cs == []) && (top.Some? ==> IsFirstMax(cs, top.value))
  {
    var keys, counts := Distinct(cs), CountsOf(cs);
    if cs != [] {
      assert cs[0] in keys;
      var j := FirstMaxIndex(keys, counts);
      FirstMaxIndexIsFirstMax(keys, counts);
      var c := keys[j];
      IndexOfDistinct(keys, j);
      forall d | d in cs
        ensures multiset(cs)[d] <= multiset(cs)[c]
      {
        var q := IndexOf(keys, d);
      }
      forall d | d in cs && d != c && multiset(cs)[d] == multiset(cs)[c]
        ensures IndexOf(cs, c) < IndexOf(cs, d)
      {
        var q := IndexOf(keys, d);
        assert q != j;
        DistinctOrder(cs, c, d);
      }
    }
  }

  /** A row's `top_category` is `None` exactly when no product of that user
      resolved to a truthy category. */
  lemma TopCategoryNoneIff(lookup: ProductId -> Option<Category>, carts: seq<Cart>, u: UserId)
    requires u in UserIds(carts)
    ensures Summarize(u, StateOf(lookup, carts, u)).topCategory.None? <==>
      forall i, k :: 0 <= i < |carts| && carts[i].userId == u && 0 <= k < |carts[i].products| ==>
        !Truthy(lookup(carts[i].products[k]))
  {
    TopOfStream(UserStream(lookup, carts, u));
    StreamEmpty(lookup, carts, u);
  }

  /** At most one category of a stream is its first maximum. */
  lemma FirstMaxUnique(cs: seq<Category>, c: Category, d: Category)
    requires IsFirstMax(cs, c) && IsFirstMax(cs, d)
    ensures c == d
  {
  }

  /** A row's `top_category`, when present, is the one category that has the
      largest count of that user's categories and was counted before every
      other category with the same count. */
  lemma TopCategoryIsFirstMax(lookup: ProductId -> Option<Category>, carts: seq<Cart>, u: UserId)
    requires u in UserIds(carts)
    ensures var top := Summarize(u, StateOf(lookup, carts, u)).topCategory;
      top.Some? ==>
        IsFirstMax(UserStream(lookup, carts, u), top.value) &&
        forall c :: IsFirstMax(UserStream(lookup, carts, u), c) ==> c == top.value
  {
    var cs := UserStream(lookup, carts, u);
    TopOfStream(cs);
    var top := Summarize(u, StateOf(lookup, carts, u)).topCategory;
    if top.Some? {
      forall c | IsFirstMax(cs, c)
        ensures c == top.value
      {
        FirstMaxUnique(cs, c, top.value);
      }
    }
  }
}
