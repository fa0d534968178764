/** The request handler: reads the solved.ac user fields, splits the solved count into
    difficulty buckets and chooses between the error cards and the stats card. */
module Handler {
  import opened Tier
  import opened Progress

  datatype Option<T> = None | Some(value: T)

  /** The numeric fields of a solved.ac user record; None is a field that is absent or null. */
  datatype UserFields = UserFields(solvedCount: Option<int>, rank: Option<int>, tier: Option<int>)

  /** What the HTTP client delivers for a handle: a rejected request, or a response body,
      where None is a null body (reading a field of it throws). */
  datatype Reply = Failed | Replied(body: Option<UserFields>)

  /** The solved counts per difficulty class. */
  datatype Tally = Tally(easy: int, medium: int, hard: int) {
    function At(c: TierClass): int
    {
      match c
      case Easy => easy
      case Medium => medium
      case Hard => hard
    }

    function Total(): int
    {
      easy + medium + hard
    }
  }

  /** The values handed to the stats card template. */
  datatype CardStats = CardStats(
    username: string, rank: int, solvedCount: int,
    easySolved: int, mediumSolved: int, hardSolved: int,
    easyTotal: int, mediumTotal: int, hardTotal: int,
    overallPercent: int)
  {
    function Buckets(): Tally
    {
      Tally(easySolved, mediumSolved, hardSolved)
    }
  }

  /** The two cards the handler can answer with. */
  datatype Card = ErrorCard(message: string) | StatsCard(stats: CardStats)

  const NoUsernameMessage: string := "No username provided"
  const FetchErrorMessage: string := "Error fetching user data"

  const DefaultSolvedCount: int := 0
  const DefaultRank: int := 999999
  const DefaultTier: int := 0

  /** JavaScript truthiness of a numeric field: present and not zero. */
  predicate Truthy(field: Option<int>)
  {
    field.Some? && field.value != 0
  }

  /** JavaScript truthiness of the username query parameter: present and not empty. */
  predicate HasUsername(query: Option<string>)
  {
    query.Some? && query.value != ""
  }

  /** `field || fallback`: a truthy field passes through, anything else is replaced. */
  function OrDefault(field: Option<int>, fallback: int): (v: int)
    ensures Truthy(field) ==> v == field.value
    ensures !Truthy(field) ==> v == fallback
    ensures fallback != 0 ==> v != 0
  {
    if Truthy(field) then field.value else fallback
  }

  function SolvedCountOf(data: UserFields): int { OrDefault(data.solvedCount, DefaultSolvedCount) }
  function RankOf(data: UserFields): int { OrDefault(data.rank, DefaultRank) }
  function TierOf(data: UserFields): int { OrDefault(data.tier, DefaultTier) }

  /** A falsy solved count reads as 0. */
  lemma SolvedCountDefault(data: UserFields)
    requires !Truthy(data.solvedCount)
    ensures SolvedCountOf(data) == 0
  {
  }

  /** A falsy rank reads as 999999. */
  lemma RankDefault(data: UserFields)
    requires !Truthy(data.rank)
    ensures RankOf(data) == 999999
  {
  }

  /** A falsy tier reads as 0, and that tier is easy. */
  lemma TierDefault(data: UserFields)
    requires !Truthy(data.tier)
    ensures TierOf(data) == 0 && Classify(TierOf(data)) == Easy
  {
  }

  /** The read rank is never 0. */
  lemma RankNeverZero(data: UserFields)
    ensures RankOf(data) != 0
  {
  }

  /** The whole solved count goes into the bucket of the given class. */
  function Split(solvedCount: int, c: TierClass): (t: Tally)
    ensures t.At(c) == solvedCount
    ensures forall d: TierClass :: d != c ==> t.At(d) == 0
  {
    match c
    case Easy => Tally(solvedCount, 0, 0)
    case Medium => Tally(0, solvedCount, 0)
    case Hard => Tally(0, 0, solvedCount)
  }

  /** The split loses nothing and invents nothing: the buckets add up to the solved count. */
  lemma SplitPreservesTotal(solvedCount: int, c: TierClass)
    ensures Split(solvedCount, c).Total() == solvedCount
  {
  }

  /** The three counters start at 0 and the one named by the class is overwritten. */
  method SplitSolved(solvedCount: int, tierClass: TierClass)
    returns (easySolved: int, mediumSolved: int, hardSolved: int)
    ensures Tally(easySolved, mediumSolved, hardSolved) == Split(solvedCount, tierClass)
    ensures easySolved + mediumSolved + hardSolved == solvedCount
  {
    easySolved := 0;
    mediumSolved := 0;
    hardSolved := 0;
    if tierClass == Easy {
      easySolved := solvedCount;
    } else if tierClass == Medium {
      mediumSolved := solvedCount;
    } else {
      hardSolved := solvedCount;
    }
  }

  /** The values the stats card shows for a user record. */
  function StatsFor(username: string, data: UserFields): (s: CardStats)
    ensures s.username == username && s.rank == RankOf(data) && s.solvedCount == SolvedCountOf(data)
    ensures s.Buckets() == Split(s.solvedCount, Classify(TierOf(data)))
    ensures s.Buckets().Total() == s.solvedCount
    ensures s.easyTotal == EasyTotal && s.mediumTotal == MediumTotal && s.hardTotal == HardTotal
    ensures s.easyTotal + s.mediumTotal + s.hardTotal == 3476
    ensures s.overallPercent == RoundHalfUp(ExactPercent(s.solvedCount))
  {
    var solvedCount := SolvedCountOf(data);
    var buckets := Split(solvedCount, Classify(TierOf(data)));
    SplitPreservesTotal(solvedCount, Classify(TierOf(data)));
    CardStats(username, RankOf(data), solvedCount,
              buckets.easy, buckets.medium, buckets.hard,
              EasyTotal, MediumTotal, HardTotal,
              OverallPercent(solvedCount))
  }

  /** A record with no usable field gives an empty easy card at rank 999999 and 0 percent. */
  lemma StatsOfEmptyRecord(username: string, data: UserFields)
    requires !Truthy(data.solvedCount) && !Truthy(data.rank) && !Truthy(data.tier)
    ensures StatsFor(username, data)
         == CardStats(username, 999999, 0, 0, 0, 0, 863, 1807, 806, 0)
  {
    SolvedCountDefault(data);
    RankDefault(data);
    TierDefault(data);
    PercentOfNone();
  }

  /** The handler: no username gives the first error card without any request; otherwise
      the handle is requested, and a rejected request or a null body gives the second error
      card, while a response body gives the stats card. `requested` is the handle the
      HTTP client is asked for, if any; it is set alongside the call to `fetch`, which is
      a pure function here, so that no request happens without a username rests on the
      first postcondition fixing the card without any reference to `fetch`. */
  method Handle(query: Option<string>, fetch: string -> Reply)
    returns (card: Card, requested: Option<string>)
    ensures !HasUsername(query) ==> card == ErrorCard(NoUsernameMessage) && requested == None
    ensures HasUsername(query) ==> requested == Some(query.value)
    ensures HasUsername(query) && (fetch(query.value).Failed? || fetch(query.value).body.None?)
            ==> card == ErrorCard(FetchErrorMessage)
    ensures HasUsername(query) && fetch(query.value).Replied? && fetch(query.value).body.Some?
            ==> card == StatsCard(StatsFor(query.value, fetch(query.value).body.value))
    ensures card.StatsCard? <==>
            HasUsername(query) && fetch(query.value).Replied? && fetch(query.value).body.Some?
  {
    if !HasUsername(query) {
      return ErrorCard(NoUsernameMessage), None;
    }
    var username := query.value;
    requested := Some(username);
    var reply := fetch(username);
    if reply.Failed? || reply.body.None? {
      card := ErrorCard(FetchErrorMessage);
      return;
    }
    var data := reply.body.value;
    var solvedCount := OrDefault(data.solvedCount, DefaultSolvedCount);
    var rank := OrDefault(data.rank, DefaultRank);
    var tier := OrDefault(data.tier, DefaultTier);
    var tierClass := Classify(tier);
    var easySolved, mediumSolved, hardSolved := SplitSolved(solvedCount, tierClass);
    var overallPercent := OverallPercent(solvedCount);
    card := StatsCard(CardStats(username, rank, solvedCount,
                                easySolved, mediumSolved, hardSolved,
                                EasyTotal, MediumTotal, HardTotal, overallPercent));
  }
}
