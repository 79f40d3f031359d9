/** The imperative core of `transform_cart_data` (dags/utils/transform.py):
    the `user_data` dictionary filled record by record, then read out into the
    final rows. */
module Transform {
  import opened Wrappers
  import opened Sequences
  import opened CartSpec
  import opened CartProperties

  /** The `user_data` dictionary. Python dictionaries keep insertion order;
      here `users` is that order and `states` the entries. `seen` is the
      (ghost) sequence of parsed records processed so far. */
  class UserData {
    /** `get_product_category`, with request errors already mapped to `None`. */
    const lookup: ProductId -> Option<Category>
    var users: seq<UserId>
    var states: map<UserId, UserState>
    ghost var seen: seq<Cart>

    /** The entries are exactly what the specification says the pass has
        built from `seen`, with the keys in first-seen order. */
    ghost predicate Valid()
      reads this
    {
      users == Users(seen) && states == States(lookup, seen)
    }

    /** `user_data = {}` */
    constructor (lookup: ProductId -> Option<Category>)
      ensures Valid()
      ensures this.lookup == lookup && seen == [] && users == [] && states == map[]
    {
      this.lookup := lookup;
      users := [];
      states := map[];
      seen := [];
    }

    /** The body of the `for _, row in df_carts.iterrows()` loop once the date
        has parsed: create the user's entry or move its date forward, then
        count the products' categories into it. Every other user's entry is
        left as it was. */
    method Observe(userId: UserId, cartDate: Timestamp, products: seq<ProductId>)
      requires Valid()
      modifies this
      ensures Valid()
      ensures seen == old(seen) + [Cart(userId, cartDate, products)]
    {
      ghost var cart := Cart(userId, cartDate, products);
      ghost var before := seen;
      var entries := states;
      var data: UserState;
      if userId !in entries {
        users := users + [userId];
        data := UserState(cartDate, [], map[]);
      } else {
        data := entries[userId];
        if cartDate > data.latestCartDate {
          data := data.(latestCartDate := cartDate);
        }
      }
      assert data == Refresh(entries, cart);
      data := CountProducts(data, products);
      states := entries[userId := data];
      assert users == Users(before + [cart]) by {
        UsersSnoc(before, cart);
      }
      assert states == States(lookup, before + [cart]) by {
        StatesSnoc(lookup, before, cart);
      }
      seen := before + [cart];
    }

    /** The inner `for product_id in products` loop: each product's category
        is looked up, and a truthy one is counted into the user's entry. */
    method CountProducts(entry: UserState, products: seq<ProductId>) returns (data: UserState)
      ensures data == CountAll(entry, Resolved(lookup, products))
    {
      data := entry;
      assert products[..0] == [];
      var i := 0;
      while i < |products|
        invariant 0 <= i <= |products|
        invariant data == CountAll(entry, Resolved(lookup, products[..i]))
      {
        ghost var counted := Resolved(lookup, products[..i]);
        ResolvedSnoc(lookup, products, i);
        var category := lookup(products[i]);
        if Truthy(category) {
          var c := category.value;
          CountAllSnoc(entry, counted, c);
          if c in data.counts {
            data := data.(counts := data.counts[c := data.counts[c] + 1]);
          } else {
            data := data.(categories := data.categories + [c], counts := data.counts[c := 1]);
          }
          assert Resolved(lookup, products[..i + 1]) == counted + [c];
        } else {
          assert Resolved(lookup, products[..i + 1]) == counted;
        }
        i := i + 1;
      }
      assert products[..i] == products;
    }

    /** The `for user_id, data in user_data.items()` loop: one row per entry,
        in insertion order, with `top_category` the first key of maximal count
        or `None` when nothing was counted. */
    method Finalize() returns (rows: seq<Summary>)
      requires Valid()
      ensures rows == Summaries(lookup, seen)
    {
      StatesFinalizable(lookup, seen);
      rows := [];
      var i := 0;
      while i < |users|
        invariant 0 <= i <= |users|
        invariant rows == Rows(users[..i], states)
      {
        var userId := users[i];
        var data := states[userId];
        var topCategory: Option<Category>;
        if data.categories != [] {
          topCategory := Some(data.categories[FirstMaxIndex(data.categories, data.counts)]);
        } else {
          topCategory := None;
        }
        rows := rows + [Summary(userId, data.latestCartDate, topCategory)];
        RowsSnoc(users, states, i);
        i := i + 1;
      }
      assert users[..i] == users;
    }
  }

  /** `transform_cart_data`: parse each record's date in input order, aborting
      the whole run at the first date `parse` rejects; otherwise fold every
      record into `user_data` and emit one row per user. */
  method TransformCartData(parse: string -> Option<Timestamp>, lookup: ProductId -> Option<Category>, records: seq<CartRecord>)
    returns (result: Result<seq<Summary>, Error>)
    ensures result == Transform(parse, lookup, records)
  {
    var userData := new UserData(lookup);
    var i := 0;
    while i < |records|
      invariant 0 <= i <= |records|
      invariant userData.Valid() && userData.lookup == lookup
      invariant ParseAll(parse, records[..i]) == Success(userData.seen)
    {
      var record := records[i];
      var cartDate := parse(record.date);
      if cartDate.None? {
        ParseStopsAtFirstFailure(parse, records, i);
        return Failure(MalformedDate(i, record.date));
      }
      ParseAllSnoc(parse, records, i, userData.seen, cartDate.value);
      userData.Observe(record.userId, cartDate.value, record.products);
      i := i + 1;
    }
    assert records[..i] == records;
    var rows := userData.Finalize();
    TransformOfParsed(parse, lookup, records, userData.seen);
    return Success(rows);
  }
}
