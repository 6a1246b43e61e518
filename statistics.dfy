/**
 * The statistics popup opened from the logo: the number of cards, the
 * creation times of the oldest and the newest card (read from a copy of the
 * card list sorted newest first), the number of card owners, each owner's
 * card count and the largest such count. Timestamps are integers; only
 * their order matters here.
 */
module Statistics {
  import opened Wrappers

  datatype Owner = Owner(id: string, name: string)

  datatype Card = Card(name: string, owner: Owner, createdAt: int)

  /** One value of the per-owner map: the owner's name and how many of the cards are theirs. */
  datatype UserEntry = UserEntry(name: string, count: nat)

  /** The figures the popup shows. */
  datatype Summary = Summary(
    totalCards: nat,
    firstCreated: int,
    lastCreated: int,
    userCount: nat,
    maxCards: nat,
    users: seq<UserEntry>)

  /**
   * With no cards the source reads a property of `sortedCards[-1]`, which is
   * undefined; the TypeError is logged and the popup is not opened.
   */
  datatype StatsError = EmptyCardList

  predicate NewestFirst(s: seq<Card>) {
    forall i, j :: 0 <= i < j < |s| ==> s[i].createdAt >= s[j].createdAt
  }

  /**
   * The copy taken and sorted by `[...cards].sort(...)` with the comparator
   * `b.createdAt - a.createdAt`: an insertion sort on a fresh array,
   * so the caller's list keeps its order.
   */
  method SortNewestFirst(cards: seq<Card>) returns (sorted: seq<Card>)
    ensures NewestFirst(sorted)
    ensures multiset(sorted) == multiset(cards)
  {
    var a := new Card[|cards|](k requires 0 <= k < |cards| => cards[k]);
    assert a[..] == cards;
    if a.Length > 0 {
      var i := 1;
      while i < a.Length
        invariant 1 <= i <= a.Length
        invariant NewestFirst(a[..i])
        invariant multiset(a[..]) == multiset(cards)
      {
        InsertNewest(a, i);
        i := i + 1;
      }
      assert a[..] == a[..i];
    }
    sorted := a[..];
  }

  /** One pass of the insertion sort: `a[i]` moves left past every strictly older card. */
  method InsertNewest(a: array<Card>, i: nat)
    requires i < a.Length && NewestFirst(a[..i])
    modifies a
    ensures NewestFirst(a[..i + 1])
    ensures multiset(a[..]) == old(multiset(a[..]))
  {
    var j := i;
    while j > 0 && a[j - 1].createdAt < a[j].createdAt
      invariant 0 <= j <= i
      invariant forall k, l :: 0 <= k < l <= i && k != j && l != j ==> a[k].createdAt >= a[l].createdAt
      invariant forall l :: j < l <= i ==> a[j].createdAt > a[l].createdAt
      invariant multiset(a[..]) == old(multiset(a[..]))
    {
      SwapAdjacent(a, j);
      j := j - 1;
    }
  }

  method SwapAdjacent(a: array<Card>, j: nat)
    requires 0 < j < a.Length
    modifies a
    ensures a[j - 1] == old(a[j]) && a[j] == old(a[j - 1])
    ensures forall k :: 0 <= k < a.Length && k != j - 1 && k != j ==> a[k] == old(a[k])
    ensures multiset(a[..]) == old(multiset(a[..]))
  {
    a[j - 1], a[j] := a[j], a[j - 1];
  }

  function Init<T>(s: seq<T>): seq<T>
    requires s != []
  {
    s[..|s| - 1]
  }

  function Last<T>(s: seq<T>): T
    requires s != []
  {
    s[|s| - 1]
  }

  /** The keys of the per-owner map in insertion order, the order of Object.values. */
  function Keys(cards: seq<Card>): seq<string>
    decreases |cards|
  {
    if cards == [] then []
    else
      var ks := Keys(Init(cards));
      if Last(cards).owner.id in ks then ks else ks + [Last(cards).owner.id]
  }

  /** The per-owner map after the loop has visited `cards`. */
  function Tally(cards: seq<Card>): map<string, UserEntry>
    decreases |cards|
  {
    if cards == [] then map[]
    else
      var m := Tally(Init(cards));
      var c := Last(cards);
      var e := if c.owner.id in m then m[c.owner.id] else UserEntry(c.owner.name, 0);
      m[c.owner.id := e.(count := e.count + 1)]
  }

  /** How many of the cards belong to owner `id`. */
  function Occurrences(cards: seq<Card>, id: string): nat
    decreases |cards|
  {
    if cards == [] then 0
    else Occurrences(Init(cards), id) + (if Last(cards).owner.id == id then 1 else 0)
  }

  /** The distinct owner ids among the cards. */
  function OwnerIds(cards: seq<Card>): set<string> {
    set c | c in cards :: c.owner.id
  }

  predicate Distinct(ks: seq<string>) {
    forall i, j :: 0 <= i < j < |ks| ==> ks[i] != ks[j]
  }

  /** The map's values read along `ks`. */
  function Entries(m: map<string, UserEntry>, ks: seq<string>): (es: seq<UserEntry>)
    requires forall k :: k in ks ==> k in m
    ensures |es| == |ks|
    ensures forall i :: 0 <= i < |ks| ==> es[i] == m[ks[i]]
    decreases |ks|
  {
    if ks == [] then [] else Entries(m, Init(ks)) + [m[Last(ks)]]
  }

  function Sum(es: seq<UserEntry>): nat
    decreases |es|
  {
    if es == [] then 0 else Sum(Init(es)) + Last(es).count
  }

  /** `Math.max(...users.map((user) => user.count))`, defined here only for a non-empty list. */
  function MaxCount(users: seq<UserEntry>): (m: nat)
    requires users != []
    ensures forall i :: 0 <= i < |users| ==> users[i].count <= m
    ensures exists i :: 0 <= i < |users| && users[i].count == m
    decreases |users|
  {
    if |users| == 1 then users[0].count
    else
      var m := MaxCount(Init(users));
      if Last(users).count > m then Last(users).count else m
  }

  /** Keys(cards) lists each owner id once, and exactly the ids that are keys of the map. */
  lemma {:induction false} KeysOfTally(cards: seq<Card>)
    ensures Distinct(Keys(cards))
    ensures forall id :: id in Keys(cards) <==> id in Tally(cards)
    ensures forall id :: id in Keys(cards) <==> id in OwnerIds(cards)
    decreases |cards|
  {
    if cards != [] {
      var init := Init(cards);
      KeysOfTally(init);
      assert cards == init + [Last(cards)];
      assert OwnerIds(cards) == OwnerIds(init) + {Last(cards).owner.id};
    }
  }

  /** Each owner's entry counts that owner's cards, so it is at least 1. */
  lemma {:induction false} TallyCounts(cards: seq<Card>, id: string)
    requires id in Tally(cards)
    ensures Tally(cards)[id].count == Occurrences(cards, id)
    ensures Tally(cards)[id].count >= 1
    decreases |cards|
  {
    var init := Init(cards);
    if id in Tally(init) {
      TallyCounts(init, id);
    } else if init != [] {
      NoEntryNoCards(init, id);
    }
  }

  lemma {:induction false} NoEntryNoCards(cards: seq<Card>, id: string)
    requires id !in Tally(cards)
    ensures Occurrences(cards, id) == 0
    decreases |cards|
  {
    if cards != [] {
      NoEntryNoCards(Init(cards), id);
    }
  }

  /** The name in an owner's entry is the one on that owner's first card; later cards never replace it. */
  lemma {:induction false} TallyNames(cards: seq<Card>, id: string, i: nat)
    requires i < |cards| && cards[i].owner.id == id
    requires forall j :: 0 <= j < i ==> cards[j].owner.id != id
    ensures id in Tally(cards) && Tally(cards)[id].name == cards[i].owner.name
    decreases |cards|
  {
    var init := Init(cards);
    if i < |init| {
      TallyNames(init, id, i);
    } else if id in Tally(init) {
      KeysOfTally(init);
      assert false;
    }
  }

  /** Changing the map off the keys read leaves the entries unchanged. */
  lemma {:induction false} EntriesUpdateElsewhere(m: map<string, UserEntry>, ks: seq<string>, id: string, e: UserEntry)
    requires forall k :: k in ks ==> k in m
    requires id !in ks
    ensures Entries(m[id := e], ks) == Entries(m, ks)
  {
  }

  /** Adding one to the entry of a key read once adds one to the sum. */
  lemma {:induction false} SumIncrement(m: map<string, UserEntry>, ks: seq<string>, id: string)
    requires forall k :: k in ks ==> k in m
    requires Distinct(ks) && id in ks
    ensures Sum(Entries(m[id := m[id].(count := m[id].count + 1)], ks)) == Sum(Entries(m, ks)) + 1
    decreases |ks|
  {
    var m' := m[id := m[id].(count := m[id].count + 1)];
    var init := Init(ks);
    assert ks == init + [Last(ks)];
    if Last(ks) == id {
      assert id !in init;
      EntriesUpdateElsewhere(m, init, id, m'[id]);
    } else {
      SumIncrement(m, init, id);
    }
    assert Entries(m', ks) == Entries(m', init) + [m'[Last(ks)]];
    assert Entries(m, ks) == Entries(m, init) + [m[Last(ks)]];
  }

  /** The keys of the per-owner map are among its keys, read in insertion order. */
  lemma KeysInTally(cards: seq<Card>)
    ensures forall k :: k in Keys(cards) ==> k in Tally(cards)
  {
    KeysOfTally(cards);
  }

  /** `Object.values(usersMap)`: the per-owner entries in insertion order. */
  function Users(cards: seq<Card>): seq<UserEntry> {
    KeysInTally(cards);
    Entries(Tally(cards), Keys(cards))
  }

  /** The users listed are one entry per distinct owner id, in the order the ids were first seen. */
  lemma UsersInInsertionOrder(cards: seq<Card>)
    ensures |Users(cards)| == |Keys(cards)| == |OwnerIds(cards)|
    ensures forall i :: 0 <= i < |Users(cards)| ==> Keys(cards)[i] in Tally(cards) && Users(cards)[i] == Tally(cards)[Keys(cards)[i]]
  {
    KeysInTally(cards);
    UserCountIsOwnerCount(cards);
  }

  /** Each card adds one to exactly one owner's count, so the counts add up to the number of cards. */
  lemma {:induction false} CountsSumToCards(cards: seq<Card>)
    ensures Sum(Users(cards)) == |cards|
    decreases |cards|
  {
    if cards != [] {
      var init := Init(cards);
      CountsSumToCards(init);
      TallyStep(init, Last(cards));
      assert init + [Last(cards)] == cards;
    }
  }

  /** Visiting one more card adds one to the sum of the counts. */
  lemma TallyStep(cards: seq<Card>, c: Card)
    ensures Sum(Users(cards + [c])) == Sum(Users(cards)) + 1
  {
    var cs := cards + [c];
    assert Init(cs) == cards && Last(cs) == c;
    var m, ks := Tally(cards), Keys(cards);
    KeysOfTally(cards);
    if c.owner.id in m {
      assert Keys(cs) == ks;
      assert Tally(cs) == m[c.owner.id := m[c.owner.id].(count := m[c.owner.id].count + 1)];
      SumIncrement(m, ks, c.owner.id);
      assert Users(cs) == Entries(Tally(cs), ks);
    } else {
      assert Keys(cs) == ks + [c.owner.id];
      assert Tally(cs) == m[c.owner.id := UserEntry(c.owner.name, 1)];
      SumNewKey(m, ks, c.owner.id, UserEntry(c.owner.name, 1));
      assert Users(cs) == Entries(Tally(cs), ks + [c.owner.id]);
    }
  }

  /** A new key read last adds its own count to the sum. */
  lemma SumNewKey(m: map<string, UserEntry>, ks: seq<string>, id: string, e: UserEntry)
    requires forall k :: k in ks ==> k in m
    requires id !in ks
    ensures Sum(Entries(m[id := e], ks + [id])) == Sum(Entries(m, ks)) + e.count
  {
    var ks' := ks + [id];
    assert Init(ks') == ks;
    EntriesUpdateElsewhere(m, ks, id, e);
    var es := Entries(m[id := e], ks');
    assert Init(es) == Entries(m, ks);
  }

  /** A list without repeats is as long as the set of its elements. */
  lemma {:induction false} DistinctCardinality(ks: seq<string>)
    requires Distinct(ks)
    ensures |set k | k in ks| == |ks|
    decreases |ks|
  {
    if ks != [] {
      var init := Init(ks);
      DistinctCardinality(init);
      assert ks == init + [Last(ks)];
      assert (set k | k in ks) == (set k | k in init) + {Last(ks)};
    }
  }

  /** The number of users shown is the number of distinct owner ids. */
  lemma UserCountIsOwnerCount(cards: seq<Card>)
    ensures |Keys(cards)| == |OwnerIds(cards)|
  {
    KeysOfTally(cards);
    DistinctCardinality(Keys(cards));
    assert (set k | k in Keys(cards)) == OwnerIds(cards);
  }

  /** The per-owner map and its key order, built by the `cards.forEach` loop. */
  method CountByOwner(cards: seq<Card>) returns (usersMap: map<string, UserEntry>, keys: seq<string>)
    ensures usersMap == Tally(cards) && keys == Keys(cards)
  {
    usersMap, keys := map[], [];
    for i := 0 to |cards|
      invariant usersMap == Tally(cards[..i]) && keys == Keys(cards[..i])
    {
      KeysOfTally(cards[..i]);
      assert Init(cards[..i + 1]) == cards[..i];
      var card := cards[i];
      var userId := card.owner.id;
      if userId !in usersMap {
        usersMap := usersMap[userId := UserEntry(card.owner.name, 0)];
        keys := keys + [userId];
      }
      usersMap := usersMap[userId := usersMap[userId].(count := usersMap[userId].count + 1)];
    }
    assert cards[..|cards|] == cards;
  }

  /** The first card of the sorted copy is the newest of all the cards and the last one the oldest. */
  lemma SortedEnds(sorted: seq<Card>, cards: seq<Card>)
    requires NewestFirst(sorted) && multiset(sorted) == multiset(cards) && sorted != []
    ensures cards != [] && |sorted| == |cards|
    ensures sorted[0] in cards && sorted[|sorted| - 1] in cards
    ensures forall c :: c in cards ==> sorted[|sorted| - 1].createdAt <= c.createdAt <= sorted[0].createdAt
  {
    assert |cards| == |multiset(cards)| == |sorted|;
    forall c | c in cards ensures sorted[|sorted| - 1].createdAt <= c.createdAt <= sorted[0].createdAt {
      assert c in multiset(sorted);
    }
    assert sorted[0] in multiset(cards) && sorted[|sorted| - 1] in multiset(cards);
  }

  /** For a non-empty card list there is at least one user, every count is at least 1, and the counts sum to the cards. */
  lemma UsersOfCards(cards: seq<Card>)
    requires cards != []
    ensures Users(cards) != []
    ensures forall i :: 0 <= i < |Users(cards)| ==> Users(cards)[i].count >= 1
    ensures Sum(Users(cards)) == |cards|
    ensures |Users(cards)| == |OwnerIds(cards)|
  {
    var us := Users(cards);
    UsersInInsertionOrder(cards);
    assert cards[0] in cards;
    KeysOfTally(cards);
    forall i | 0 <= i < |us| ensures us[i].count >= 1 {
      TallyCounts(cards, Keys(cards)[i]);
    }
    CountsSumToCards(cards);
  }

  /** The figures computed by the logo click handler once the cards have arrived. */
  method ComputeStatistics(cards: seq<Card>) returns (r: Result<Summary, StatsError>)
    ensures r.Failure? <==> cards == []
    ensures r.Success? ==> r.value.totalCards == |cards|
    ensures r.Success? ==> forall c :: c in cards ==> r.value.firstCreated <= c.createdAt <= r.value.lastCreated
    ensures r.Success? ==> exists c :: c in cards && c.createdAt == r.value.firstCreated
    ensures r.Success? ==> exists c :: c in cards && c.createdAt == r.value.lastCreated
    ensures r.Success? ==> r.value.users == Users(cards)
    ensures r.Success? ==> r.value.userCount == |OwnerIds(cards)| == |r.value.users|
    ensures r.Success? ==> Sum(r.value.users) == |cards|
    ensures r.Success? ==> forall i :: 0 <= i < |r.value.users| ==> 1 <= r.value.users[i].count <= r.value.maxCards
    ensures r.Success? ==> exists i :: 0 <= i < |r.value.users| && r.value.users[i].count == r.value.maxCards
  {
    var sortedCards := SortNewestFirst(cards);
    if |sortedCards| == 0 {
      assert |multiset(cards)| == 0;
      return Failure(EmptyCardList);
    }
    SortedEnds(sortedCards, cards);
    var firstCreated := sortedCards[|sortedCards| - 1].createdAt;
    var lastCreated := sortedCards[0].createdAt;

    var usersMap, keys := CountByOwner(cards);
    KeysInTally(cards);
    var users := Entries(usersMap, keys);
    assert users == Users(cards);
    UsersOfCards(cards);
    var maxCards := MaxCount(users);
    r := Success(Summary(|cards|, firstCreated, lastCreated, |users|, maxCards, users));
  }
}
