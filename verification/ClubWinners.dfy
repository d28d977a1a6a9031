/** What the one-pass winner loop finds, said without the loop: the clubs whose stake grew most
    since the last snapshot, as long as no earlier one of them holds more. */
module ClubWinners {
  import opened Chain
  import opened ClubStaking
  import KeyOrder

  /** No club's stake grew by more. */
  predicate GrewMost(es: seq<Entry>, i: nat)
    requires i < |es|
  {
    forall j :: 0 <= j < |es| ==> es[j].Increase() <= es[i].Increase()
  }

  /** A winner: it grew most, and no earlier club that grew as much holds more. */
  predicate Wins(es: seq<Entry>, i: nat)
    requires i < |es|
  {
    GrewMost(es, i) && forall j :: 0 <= j < i && es[j].Increase() == es[i].Increase() ==> es[j].stake <= es[i].stake
  }

  /** The clubs that grew by `most` and are not topped by an earlier one, in order. */
  function Collect(es: seq<Entry>, most: int): seq<string> {
    if es == [] then [] else
      var n := |es| - 1;
      Collect(es[..n], most) + (if NotTopped(es, n, most) then [es[n].club] else [])
  }

  predicate NotTopped(es: seq<Entry>, i: nat, most: int)
    requires i < |es|
  {
    es[i].Increase() == most && forall j :: 0 <= j < i && es[j].Increase() == most ==> es[j].stake <= es[i].stake
  }

  /** What the loop has established after some entries. */
  predicate Established(es: seq<Entry>, sc: Scan) {
    && sc.increase >= -MAX_UFURY_COUNT
    && (forall i :: 0 <= i < |es| ==> es[i].Increase() <= sc.increase)
    && (forall i :: 0 <= i < |es| && es[i].Increase() == sc.increase ==> es[i].stake <= sc.topStake)
    && ((exists i :: 0 <= i < |es| && es[i].Increase() == sc.increase && es[i].stake == sc.topStake)
        || (sc == SCAN_START && forall i :: 0 <= i < |es| ==> es[i].Increase() < -MAX_UFURY_COUNT))
  }

  lemma {:induction false} CollectNone(es: seq<Entry>, most: int)
    requires forall i :: 0 <= i < |es| ==> es[i].Increase() != most
    ensures Collect(es, most) == []
  {
    if es != [] {
      CollectNone(es[..|es| - 1], most);
    }
  }

  lemma {:induction false} ScanEstablishes(es: seq<Entry>)
    ensures Established(es, ScanAll(es))
  {
    if es != [] {
      var n := |es| - 1;
      var before, last := ScanAll(es[..n]), es[n];
      ScanEstablishes(es[..n]);
      assert forall i :: 0 <= i < n ==> es[..n][i] == es[i];
      var sc := ScanAll(es);
      if last.Increase() > before.increase || (last.Increase() == before.increase && last.stake >= before.topStake) {
        assert es[n].Increase() == sc.increase && es[n].stake == sc.topStake;
      } else if i :| 0 <= i < n && es[..n][i].Increase() == before.increase && es[..n][i].stake == before.topStake {
        assert es[i].Increase() == sc.increase && es[i].stake == sc.topStake;
      }
    }
  }

  lemma {:induction false} ScanCollects(es: seq<Entry>)
    ensures ScanAll(es).winners == Collect(es, ScanAll(es).increase)
  {
    if es != [] {
      var n := |es| - 1;
      var before, last := ScanAll(es[..n]), es[n];
      ScanCollects(es[..n]);
      ScanEstablishes(es[..n]);
      assert forall i :: 0 <= i < n ==> es[..n][i] == es[i];
      if last.Increase() > before.increase {
        CollectNone(es[..n], last.Increase());
      } else if last.Increase() == before.increase {
        TopIsReached(es, before);
      }
    }
  }

  lemma TopIsReached(es: seq<Entry>, before: Scan)
    requires es != [] && Established(es[..|es| - 1], before)
    requires es[|es| - 1].Increase() == before.increase
    ensures NotTopped(es, |es| - 1, before.increase) <==> es[|es| - 1].stake >= before.topStake
  {
    var n := |es| - 1;
    assert forall i :: 0 <= i < n ==> es[..n][i] == es[i];
  }

  lemma {:induction false} CollectedExactly(es: seq<Entry>, most: int, club: string)
    ensures club in Collect(es, most) <==> exists i :: 0 <= i < |es| && NotTopped(es, i, most) && es[i].club == club
  {
    if es != [] {
      var n := |es| - 1;
      CollectedExactly(es[..n], most, club);
      forall i | 0 <= i < n
        ensures NotTopped(es[..n], i, most) <==> NotTopped(es, i, most)
        ensures es[..n][i].club == es[i].club
      {
        NotToppedInPrefix(es, n, i, most);
      }
      CollectedNext(es, n, most, club);
    }
  }

  lemma NotToppedInPrefix(es: seq<Entry>, n: nat, i: nat, most: int)
    requires i < n <= |es|
    ensures NotTopped(es[..n], i, most) <==> NotTopped(es, i, most)
    ensures es[..n][i].club == es[i].club
  {
    assert forall j :: 0 <= j <= i ==> es[..n][j] == es[j];
  }

  lemma CollectedNext(es: seq<Entry>, n: nat, most: int, club: string)
    requires n + 1 == |es|
    requires club in Collect(es[..n], most) <==> exists i :: 0 <= i < n && NotTopped(es, i, most) && es[i].club == club
    ensures club in Collect(es, most) <==> exists i :: 0 <= i < |es| && NotTopped(es, i, most) && es[i].club == club
  {
    if i :| 0 <= i < n && NotTopped(es, i, most) && es[i].club == club {
      assert i < |es|;
    }
  }

  /** With some club that did not shrink by more than the token's whole count, the winners are
      exactly the clubs that grew most and are topped by no earlier one that grew as much. */
  lemma WinnersAreExact(es: seq<Entry>, club: string)
    requires exists i :: 0 <= i < |es| && es[i].Increase() >= -MAX_UFURY_COUNT
    ensures club in ScanAll(es).winners <==> exists i :: 0 <= i < |es| && Wins(es, i) && es[i].club == club
  {
    var sc := ScanAll(es);
    ScanEstablishes(es);
    ScanCollects(es);
    CollectedExactly(es, sc.increase, club);
    var top :| 0 <= top < |es| && es[top].Increase() == sc.increase && es[top].stake == sc.topStake;
    forall i | 0 <= i < |es| ensures Wins(es, i) <==> NotTopped(es, i, sc.increase) {
      if Wins(es, i) {
        assert es[top].Increase() <= es[i].Increase();
      }
    }
  }

  /** There are no winners exactly when every club shrank by more than that count. */
  lemma NoWinnersExactlyWhenAllCollapsed(es: seq<Entry>)
    ensures ScanAll(es).winners == [] <==> forall i :: 0 <= i < |es| ==> es[i].Increase() < -MAX_UFURY_COUNT
  {
    var sc := ScanAll(es);
    ScanEstablishes(es);
    ScanCollects(es);
    if i :| 0 <= i < |es| && es[i].Increase() == sc.increase && es[i].stake == sc.topStake {
      CollectedExactly(es, sc.increase, es[i].club);
      assert NotTopped(es, i, sc.increase);
    }
  }

  /** The stake the 19% are shared over is the largest among the clubs that grew most. */
  lemma WinningStakeIsTheLargest(es: seq<Entry>)
    requires exists i :: 0 <= i < |es| && es[i].Increase() >= -MAX_UFURY_COUNT
    ensures exists i :: 0 <= i < |es| && GrewMost(es, i) && es[i].stake == ScanAll(es).topStake
    ensures forall i :: 0 <= i < |es| && GrewMost(es, i) ==> es[i].stake <= ScanAll(es).topStake
  {
    var sc := ScanAll(es);
    ScanEstablishes(es);
    var top :| 0 <= top < |es| && es[top].Increase() == sc.increase && es[top].stake == sc.topStake;
    assert GrewMost(es, top);
    forall i | 0 <= i < |es| && GrewMost(es, i) ensures es[i].stake <= sc.topStake {
      assert es[top].Increase() <= es[i].Increase();
    }
  }

  /** Stakes up to the token's whole count always have winners and never overflow. */
  lemma TokenBoundedStakesFit(es: seq<Entry>)
    requires forall i :: 0 <= i < |es| ==> es[i].stake <= MAX_UFURY_COUNT && es[i].previous <= MAX_UFURY_COUNT
    ensures forall i :: 0 <= i < |es| ==> IncreaseFits(es[i])
    ensures es != [] ==> ScanAll(es).winners != []
  {
    if es != [] {
      NoWinnersExactlyWhenAllCollapsed(es);
      assert es[0].Increase() >= -MAX_UFURY_COUNT;
    }
  }

  predicate DistinctClubs(es: seq<Entry>) {
    forall i, j :: 0 <= i < j < |es| ==> es[i].club != es[j].club
  }

  lemma {:induction false} CollectedDistinct(es: seq<Entry>, most: int)
    requires DistinctClubs(es)
    ensures Distinct(Collect(es, most)) && |Collect(es, most)| <= |es|
  {
    if es != [] {
      var n := |es| - 1;
      CollectedDistinct(es[..n], most);
      CollectedExactly(es[..n], most, es[n].club);
    }
  }

  lemma FirstOfTheMostWins(es: seq<Entry>, first: nat)
    requires first < |es| && GrewMost(es, first) && forall j :: 0 <= j < first ==> !GrewMost(es, j)
    ensures Wins(es, first)
  {
    forall j | 0 <= j < first ensures es[j].Increase() != es[first].Increase() {
      if es[j].Increase() == es[first].Increase() {
        assert GrewMost(es, j);
      }
    }
  }

  /** A winner holds no less than the first of those that grew most. */
  lemma WinnersTopTheFirst(es: seq<Entry>, first: nat, i: nat)
    requires first < |es| && i < |es| && Wins(es, i)
    requires GrewMost(es, first) && forall j :: 0 <= j < first ==> !GrewMost(es, j)
    ensures es[first].stake <= es[i].stake
  {
    assert es[i].Increase() == es[first].Increase() by {
      assert es[first].Increase() <= es[i].Increase();
    }
    assert first <= i;
  }

  /** All winners hold the winning stake exactly when no club that grew most holds more than the first
      of them does. */
  lemma WinnersAreEqualExactlyWhenTheFirstIsLargest(es: seq<Entry>, first: nat)
    requires first < |es| && es[first].Increase() >= -MAX_UFURY_COUNT
    requires GrewMost(es, first) && forall j :: 0 <= j < first ==> !GrewMost(es, j)
    ensures (forall i :: 0 <= i < |es| && Wins(es, i) ==> es[i].stake == ScanAll(es).topStake)
            <==> forall j :: 0 <= j < |es| && GrewMost(es, j) ==> es[j].stake <= es[first].stake
  {
    WinningStakeIsTheLargest(es);
    FirstOfTheMostWins(es, first);
    forall i | 0 <= i < |es| && Wins(es, i) ensures es[first].stake <= es[i].stake <= ScanAll(es).topStake {
      WinnersTopTheFirst(es, first, i);
      assert GrewMost(es, i);
    }
  }

  // On the storage.

  lemma {:induction false} SnappedExactly(snapshot: map<string, nat>, es: seq<Entry>, i: nat)
    requires DistinctClubs(es) && i < |es|
    ensures es[i].club in Snapped(snapshot, es) && Snapped(snapshot, es)[es[i].club] == es[i].stake
  {
    var n := |es| - 1;
    if i < n {
      SnappedExactly(snapshot, es[..n], i);
      assert es[..n][i] == es[i];
    }
  }

  lemma KeysAreDistinct(s: Storage)
    ensures Distinct(ClubKeys(s))
  {
    var keys := ClubKeys(s);
    KeyOrder.AscendingSorted(s.clubs.Keys);
    forall i, j | 0 <= i < j < |keys| ensures keys[i] != keys[j] {
      KeyOrder.Asymmetric(keys[i], keys[j]);
    }
  }

  lemma EntriesDistinct(s: Storage)
    ensures DistinctClubs(Entries(s, ClubKeys(s)))
    ensures |Entries(s, ClubKeys(s))| == |s.clubs|
  {
    KeysAreDistinct(s);
    KeyOrder.AscendingLength(s.clubs.Keys);
  }

  /** After the walk the stored snapshot is the current stakes, the winners are distinct clubs, at
      most as many as there are, and none of them holds more than the winning stake. */
  lemma {:induction false} FoundWinners(s: Storage)
    requires FindWinners(s).Ok?
    ensures var t := FindWinners(s).value;
            && t == s.(snapshot := t.snapshot, winning := t.winning)
            && (forall c :: c in s.clubs ==> c in t.snapshot && t.snapshot[c] == s.clubs[c].total)
            && t.winning.clubs == |s.clubs|
            && Distinct(t.winning.winners) && |t.winning.winners| <= |s.clubs|
            && (forall c :: c in t.winning.winners ==> c in s.clubs && s.clubs[c].total <= t.winning.winningStake)
  {
    var t := FindWinners(s).value;
    var keys := ClubKeys(s);
    var es := Entries(s, keys);
    var sc := ScanAll(es);
    EntriesDistinct(s);
    ScanEstablishes(es);
    ScanCollects(es);
    CollectedDistinct(es, sc.increase);
    forall c | c in s.clubs ensures c in t.snapshot && t.snapshot[c] == s.clubs[c].total {
      var i :| 0 <= i < |keys| && keys[i] == c;
      SnappedExactly(s.snapshot, es, i);
      assert es[i] == EntryOf(s, c);
    }
    forall c | c in t.winning.winners ensures c in s.clubs && s.clubs[c].total <= t.winning.winningStake {
      CollectedExactly(es, sc.increase, c);
      var i :| 0 <= i < |es| && NotTopped(es, i, sc.increase) && es[i].club == c;
      assert es[i] == EntryOf(s, keys[i]) && keys[i] in keys;
    }
  }

  // The same, said of the clubs and the snapshot.

  function Growth(s: Storage, c: string): int
    requires c in s.clubs
  {
    EntryOf(s, c).Increase()
  }

  /** No club's stake grew by more since the snapshot. */
  predicate Leads(s: Storage, c: string) {
    c in s.clubs && forall e :: e in s.clubs ==> Growth(s, e) <= Growth(s, c)
  }

  /** A leader that holds as much as every leader before it in key order. */
  predicate WinsIn(s: Storage, c: string) {
    Leads(s, c) && forall e :: e in s.clubs && Leads(s, e) && KeyOrder.Less(e, c) ==> s.clubs[e].total <= s.clubs[c].total
  }

  /** The largest stake among the leaders. */
  predicate LargestLead(s: Storage, stake: nat) {
    && (exists c :: c in s.clubs && Leads(s, c) && s.clubs[c].total == stake)
    && (forall c :: c in s.clubs && Leads(s, c) ==> s.clubs[c].total <= stake)
  }

  /** Some club did not lose more than the token's whole count. */
  predicate NotCollapsed(s: Storage) {
    exists c :: c in s.clubs && Growth(s, c) >= -MAX_UFURY_COUNT
  }

  /** The clubs in key order, with the entry of each. */
  lemma EntriesInOrder(s: Storage)
    ensures var keys := ClubKeys(s);
            var es := Entries(s, keys);
            && (forall i :: 0 <= i < |keys| ==> keys[i] in s.clubs && es[i] == EntryOf(s, keys[i]))
            && (forall i, j :: 0 <= i < j < |keys| ==> KeyOrder.Less(keys[i], keys[j]))
  {
    KeyOrder.AscendingSorted(s.clubs.Keys);
    var keys := ClubKeys(s);
    forall i | 0 <= i < |keys| ensures keys[i] in s.clubs {
      assert keys[i] in keys;
    }
  }

  lemma KeyIndex(s: Storage, c: string) returns (i: nat)
    requires c in s.clubs
    ensures i < |ClubKeys(s)| && ClubKeys(s)[i] == c
  {
    assert c in ClubKeys(s);
    i :| 0 <= i < |ClubKeys(s)| && ClubKeys(s)[i] == c;
  }

  lemma LeadsIsGrewMost(s: Storage, i: nat)
    requires i < |ClubKeys(s)|
    ensures Leads(s, ClubKeys(s)[i]) <==> GrewMost(Entries(s, ClubKeys(s)), i)
  {
    var keys := ClubKeys(s);
    var es := Entries(s, keys);
    EntriesInOrder(s);
    if GrewMost(es, i) {
      forall e | e in s.clubs ensures Growth(s, e) <= Growth(s, keys[i]) {
        var j := KeyIndex(s, e);
        assert es[j].Increase() <= es[i].Increase();
      }
    }
    if Leads(s, keys[i]) {
      forall j | 0 <= j < |es| ensures es[j].Increase() <= es[i].Increase() {
        assert Growth(s, keys[j]) <= Growth(s, keys[i]);
      }
    }
  }

  lemma WinsInIsWins(s: Storage, i: nat)
    requires i < |ClubKeys(s)|
    ensures WinsIn(s, ClubKeys(s)[i]) <==> Wins(Entries(s, ClubKeys(s)), i)
  {
    var keys := ClubKeys(s);
    var es := Entries(s, keys);
    EntriesInOrder(s);
    LeadsIsGrewMost(s, i);
    if Wins(es, i) {
      forall e | e in s.clubs && Leads(s, e) && KeyOrder.Less(e, keys[i])
        ensures s.clubs[e].total <= s.clubs[keys[i]].total {
        var j := KeyIndex(s, e);
        LeadsIsGrewMost(s, j);
        KeyOrder.Asymmetric(e, keys[i]);
        assert j < i;
        assert es[j].Increase() == es[i].Increase();
      }
    }
    if WinsIn(s, keys[i]) {
      forall j | 0 <= j < i && es[j].Increase() == es[i].Increase() ensures es[j].stake <= es[i].stake {
        LeadsIsGrewMost(s, j);
        assert GrewMost(es, j);
        assert KeyOrder.Less(keys[j], keys[i]);
      }
    }
  }

  lemma SomeEntryHolds(s: Storage)
    requires NotCollapsed(s)
    ensures var es := Entries(s, ClubKeys(s));
            exists i :: 0 <= i < |es| && es[i].Increase() >= -MAX_UFURY_COUNT
  {
    var c :| c in s.clubs && Growth(s, c) >= -MAX_UFURY_COUNT;
    var i := KeyIndex(s, c);
    EntriesInOrder(s);
    assert Entries(s, ClubKeys(s))[i].Increase() >= -MAX_UFURY_COUNT;
  }

  /** The stored winners, for every storage: a club wins if and only if its stake grew most since the
      snapshot and no club that grew as much and comes before it in key order holds more. */
  lemma {:induction false} StoredWinnersAreExact(s: Storage, club: string)
    requires FindWinners(s).Ok? && NotCollapsed(s)
    ensures club in FindWinners(s).value.winning.winners <==> WinsIn(s, club)
  {
    var keys := ClubKeys(s);
    var es := Entries(s, keys);
    SomeEntryHolds(s);
    EntriesInOrder(s);
    WinnersAreExact(es, club);
    if club in s.clubs {
      var i := KeyIndex(s, club);
      WinsInIsWins(s, i);
      assert es[i].club == club;
      if k :| 0 <= k < |es| && Wins(es, k) && es[k].club == club {
        if k != i {
          KeyOrder.Asymmetric(keys[if k < i then k else i], keys[if k < i then i else k]);
        }
      }
    }
  }

  /** The stored winning stake is the largest among the clubs that grew most. */
  lemma {:induction false} StoredStakeIsTheLargest(s: Storage)
    requires FindWinners(s).Ok? && NotCollapsed(s)
    ensures LargestLead(s, FindWinners(s).value.winning.winningStake)
  {
    var keys := ClubKeys(s);
    var es := Entries(s, keys);
    SomeEntryHolds(s);
    EntriesInOrder(s);
    WinningStakeIsTheLargest(es);
    var i :| 0 <= i < |es| && GrewMost(es, i) && es[i].stake == ScanAll(es).topStake;
    LeadsIsGrewMost(s, i);
    assert s.clubs[keys[i]].total == ScanAll(es).topStake;
    forall c | c in s.clubs && Leads(s, c) ensures s.clubs[c].total <= ScanAll(es).topStake {
      var j := KeyIndex(s, c);
      LeadsIsGrewMost(s, j);
    }
  }

  /** Two clubs that grew by 1, to 11 and to 21, the smaller one first in key order. */
  function Tied(first: string, second: string): Storage {
    Genesis(0).(clubs := map[first := Club("a", 0, 0, false, 11), second := Club("b", 0, 0, false, 21)],
                snapshot := map[first := 10, second := 20])
  }

  lemma TiedFacts(s: Storage, first: string, second: string)
    requires first != second && s == Tied(first, second)
    ensures s.clubs.Keys == {first, second} && |s.clubs| == 2
    ensures s.clubs[first].total == 11 && s.clubs[second].total == 21
    ensures Growth(s, first) == 1 && Growth(s, second) == 1
    ensures Get(s.snapshot, first, 0) == 10 && Get(s.snapshot, second, 0) == 20
  {
    assert |{first, second}| == 2;
  }

  /** The tie rule of the code keeps an earlier club beside a larger later one: both win, and the
      winning stake is the larger one's. */
  lemma ATieCanLeaveASmallerWinner(first: string, second: string)
    requires KeyOrder.Less(first, second)
    ensures var s := Tied(first, second);
            && FindWinners(s).Ok?
            && first in FindWinners(s).value.winning.winners && second in FindWinners(s).value.winning.winners
            && s.clubs[first].total == 11 && FindWinners(s).value.winning.winningStake == 21
  {
    KeyOrder.Asymmetric(first, second);
    var s := Tied(first, second);
    TiedFacts(s, first, second);
    TiedFits(s);
    TiedWin(s, first, second);
  }

  lemma BothWinIn(s: Storage, first: string, second: string)
    requires s.clubs.Keys == {first, second} && KeyOrder.Less(first, second)
    requires s.clubs[first].total == 11 && s.clubs[second].total == 21
    requires Growth(s, first) == 1 && Growth(s, second) == 1
    ensures WinsIn(s, first) && WinsIn(s, second) && Leads(s, first) && Leads(s, second)
  {
    KeyOrder.Asymmetric(first, second);
  }

  lemma {:induction false} TiedWin(s: Storage, first: string, second: string)
    requires s.clubs.Keys == {first, second} && KeyOrder.Less(first, second)
    requires s.clubs[first].total == 11 && s.clubs[second].total == 21
    requires Growth(s, first) == 1 && Growth(s, second) == 1 && FindWinners(s).Ok?
    ensures first in FindWinners(s).value.winning.winners && second in FindWinners(s).value.winning.winners
    ensures FindWinners(s).value.winning.winningStake == 21
  {
    BothWinIn(s, first, second);
    StoredWinnersAreExact(s, first);
    StoredWinnersAreExact(s, second);
    StoredStakeIsTheLargest(s);
  }

  /** Two clubs within the token's count always have winners. */
  lemma {:induction false} TiedFits(s: Storage)
    requires |s.clubs| == 2
    requires forall c :: c in s.clubs ==> s.clubs[c].total <= MAX_UFURY_COUNT && Get(s.snapshot, c, 0) <= MAX_UFURY_COUNT
    ensures FindWinners(s).Ok?
  {
    var es := Entries(s, ClubKeys(s));
    EntriesInOrder(s);
    KeyOrder.AscendingLength(s.clubs.Keys);
    TokenBoundedStakesFit(es);
    assert es[..1][..0] == [] && es[..1][0] == es[0];
    assert TotalStake(es) == TotalStake(es[..1]) + es[1].stake;
    assert TotalStake(es[..1]) == es[0].stake;
  }
}
