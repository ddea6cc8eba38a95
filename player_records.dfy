/**
  The record normaliser of the leaderboard client (`setPlayerData`).

  The backend sends `{players, playersInfo, fromRedis}`. When `fromRedis` is set,
  `players` is a flattened array `[username, money, username, money, ...]`;
  otherwise it is an array of `{username, money}` objects. Both are turned into
  ranked rows `{rank, username, money, country, dailydiff}` whose `country` and
  `dailydiff` come from `playersInfo[username]`.

  `Normalize` is the specification; `NormalizeRows` is the loop the client runs.
 */
module PlayerRecords {

  /** One element of the flattened wire shape: a username or a money amount. */
  datatype Entry = Name(name: string) | Amount(money: int)

  /** One element of the object wire shape, `{username, money}`. */
  datatype Pair = Pair(username: string, money: int)

  /** Per-player metadata held in `playersInfo` (the field is spelt `dailydiff`). */
  datatype Info = Info(country: string, dailydiff: int)

  /** The `players` array; the tag stands for the `fromRedis` flag. */
  datatype Players = Flat(entries: seq<Entry>) | Objs(pairs: seq<Pair>)

  /** A backend response body: `players` and the `playersInfo` side table. */
  datatype Payload = Payload(players: Players, playersInfo: map<string, Info>)

  /** One row of the grid. */
  datatype PlayerRecord = PlayerRecord(rank: int, username: string, money: int, country: string, dailydiff: int)

  /** The client throws when a username has no `playersInfo` entry. */
  datatype Error = MissingInfo(username: string)

  datatype Result<T> = Ok(value: T) | Err(error: Error)

  /** The flattened array alternates usernames (even indices) and amounts (odd indices). */
  predicate WellFormedFlat(e: seq<Entry>) {
    && |e| % 2 == 0
    && forall k :: 0 <= k < |e| ==> (e[k].Name? <==> k % 2 == 0)
  }

  predicate WellFormed(players: Players) {
    players.Flat? ==> WellFormedFlat(players.entries)
  }

  /** `players.length` */
  function Length(players: Players): nat {
    match players
    case Flat(e) => |e|
    case Objs(ps) => |ps|
  }

  /** Reads the flattened array two entries at a time. */
  function FlatPairs(e: seq<Entry>): (r: seq<Pair>)
    requires WellFormedFlat(e)
    ensures |r| == |e| / 2
    ensures forall k :: 0 <= k < |r| ==> r[k] == Pair(e[2 * k].name, e[2 * k + 1].money)
    decreases |e|
  {
    if |e| == 0 then []
    else
      assert forall k :: 0 <= k < |e| - 2 ==> e[2..][k] == e[k + 2];
      [Pair(e[0].name, e[1].money)] + FlatPairs(e[2..])
  }

  /** The `(username, money)` pairs of either wire shape, in input order. */
  function Pairs(players: Players): seq<Pair>
    requires WellFormed(players)
  {
    match players
    case Flat(e) => FlatPairs(e)
    case Objs(ps) => ps
  }

  /** `offset ? offset + 1 : 1` */
  function FirstRank(offset: nat): (r: int)
    ensures r == offset + 1
  {
    if offset != 0 then offset + 1 else 1
  }

  function Row(p: Pair, info: map<string, Info>, rank: int): PlayerRecord
    requires p.username in info
  {
    PlayerRecord(rank, p.username, p.money, info[p.username].country, info[p.username].dailydiff)
  }

  /**
    The rows for `pairs`, ranked from `first`, built as the loop builds them: by
    appending one row per pair. Fails with the first username missing from `info`.
   */
  function Build(pairs: seq<Pair>, info: map<string, Info>, first: int): Result<seq<PlayerRecord>>
    decreases |pairs|
  {
    if |pairs| == 0 then Ok([])
    else
      match Build(pairs[..|pairs| - 1], info, first)
      case Err(e) => Err(e)
      case Ok(rows) =>
        var last := pairs[|pairs| - 1];
        if last.username in info then Ok(rows + [Row(last, info, first + |pairs| - 1)])
        else Err(MissingInfo(last.username))
  }

  /** What `setPlayerData(payload, offset)` computes before it touches any state. */
  function Normalize(p: Payload, offset: nat): Result<seq<PlayerRecord>>
    requires WellFormed(p.players)
  {
    Build(Pairs(p.players), p.playersInfo, FirstRank(offset))
  }

  /** Every username of `pairs` has metadata in `info`. */
  ghost predicate AllKnown(pairs: seq<Pair>, info: map<string, Info>) {
    forall k :: 0 <= k < |pairs| ==> pairs[k].username in info
  }

  /** On success, row k is pair k, ranked `first + k`, with its metadata from `info`. */
  lemma {:induction false} BuildRows(pairs: seq<Pair>, info: map<string, Info>, first: int)
    requires Build(pairs, info, first).Ok?
    ensures AllKnown(pairs, info)
    ensures |Build(pairs, info, first).value| == |pairs|
    ensures forall k :: 0 <= k < |pairs| ==>
              Build(pairs, info, first).value[k] ==
              PlayerRecord(first + k, pairs[k].username, pairs[k].money,
                           info[pairs[k].username].country, info[pairs[k].username].dailydiff)
    decreases |pairs|
  {
    if |pairs| > 0 {
      var init := pairs[..|pairs| - 1];
      BuildRows(init, info, first);
      assert forall k :: 0 <= k < |init| ==> init[k] == pairs[k];
    }
  }

  /** Building succeeds exactly when every username is known. */
  lemma {:induction false} BuildOkIff(pairs: seq<Pair>, info: map<string, Info>, first: int)
    ensures Build(pairs, info, first).Ok? <==> AllKnown(pairs, info)
    decreases |pairs|
  {
    if |pairs| > 0 {
      var init := pairs[..|pairs| - 1];
      BuildOkIff(init, info, first);
      assert forall k :: 0 <= k < |init| ==> init[k] == pairs[k];
    }
  }

  /** On failure, the reported username is the first one without metadata. */
  lemma {:induction false} BuildErrFirstMissing(pairs: seq<Pair>, info: map<string, Info>, first: int)
    requires Build(pairs, info, first).Err?
    ensures exists k :: 0 <= k < |pairs| && pairs[k].username !in info
              && AllKnown(pairs[..k], info)
              && Build(pairs, info, first).error == MissingInfo(pairs[k].username)
    decreases |pairs|
  {
    var init := pairs[..|pairs| - 1];
    assert forall k :: 0 <= k < |init| ==> init[k] == pairs[k];
    if Build(init, info, first).Err? {
      BuildErrFirstMissing(init, info, first);
      var k :| 0 <= k < |init| && init[k].username !in info && AllKnown(init[..k], info)
               && Build(init, info, first).error == MissingInfo(init[k].username);
      assert init[..k] == pairs[..k];
    } else {
      BuildOkIff(init, info, first);
      assert init == pairs[..|pairs| - 1];
    }
  }

  /** Once a prefix fails, the whole input fails with the same error. */
  lemma {:induction false} BuildErrPersists(pairs: seq<Pair>, info: map<string, Info>, first: int, j: nat)
    requires j <= |pairs|
    requires Build(pairs[..j], info, first).Err?
    ensures Build(pairs, info, first) == Build(pairs[..j], info, first)
    decreases |pairs| - j
  {
    if j < |pairs| {
      var init := pairs[..|pairs| - 1];
      assert init[..j] == pairs[..j];
      BuildErrPersists(init, info, first, j);
    } else {
      assert pairs[..j] == pairs;
    }
  }

  /** Object shape: one row per object, ranks `offset+1, offset+2, ...` in input order. */
  lemma NormalizeObjs(p: Payload, offset: nat)
    requires p.players.Objs? && Normalize(p, offset).Ok?
    ensures |Normalize(p, offset).value| == |p.players.pairs|
    ensures forall k :: 0 <= k < |p.players.pairs| ==>
              var row := Normalize(p, offset).value[k];
              && row.rank == offset + 1 + k
              && row.username == p.players.pairs[k].username
              && row.money == p.players.pairs[k].money
              && row.username in p.playersInfo
              && row.country == p.playersInfo[row.username].country
              && row.dailydiff == p.playersInfo[row.username].dailydiff
  {
    BuildRows(p.players.pairs, p.playersInfo, offset + 1);
  }

  /** Flattened shape: `players.length / 2` rows; row k takes `players[2k]` and `players[2k+1]`. */
  lemma NormalizeFlat(p: Payload, offset: nat)
    requires p.players.Flat? && WellFormedFlat(p.players.entries) && Normalize(p, offset).Ok?
    ensures |Normalize(p, offset).value| == |p.players.entries| / 2
    ensures forall k :: 0 <= k < |p.players.entries| / 2 ==>
              var row := Normalize(p, offset).value[k];
              && row.rank == offset + 1 + k
              && row.username == p.players.entries[2 * k].name
              && row.money == p.players.entries[2 * k + 1].money
              && row.username in p.playersInfo
              && row.country == p.playersInfo[row.username].country
              && row.dailydiff == p.playersInfo[row.username].dailydiff
  {
    BuildRows(FlatPairs(p.players.entries), p.playersInfo, offset + 1);
  }

  /** Normalising fails exactly when some username is missing from `playersInfo`; it never defaults. */
  lemma NormalizeFailsIffMissing(p: Payload, offset: nat)
    requires WellFormed(p.players)
    ensures Normalize(p, offset).Err? <==>
              exists k :: 0 <= k < |Pairs(p.players)| && Pairs(p.players)[k].username !in p.playersInfo
    ensures Normalize(p, offset).Err? ==>
              Normalize(p, offset).error.username !in p.playersInfo
  {
    BuildOkIff(Pairs(p.players), p.playersInfo, offset + 1);
    if Normalize(p, offset).Err? {
      BuildErrFirstMissing(Pairs(p.players), p.playersInfo, offset + 1);
    }
  }

  /** A flattened page from offset 0: `["alice", 100, "bob", 90]` gives ranks 1 and 2. */
  lemma FlatExample()
    ensures Normalize(Payload(Flat([Name("alice"), Amount(100), Name("bob"), Amount(90)]),
                              map["alice" := Info("US", 5), "bob" := Info("FR", -2)]), 0)
            == Ok([PlayerRecord(1, "alice", 100, "US", 5), PlayerRecord(2, "bob", 90, "FR", -2)])
  {
    var e := [Name("alice"), Amount(100), Name("bob"), Amount(90)];
    var pairs := [Pair("alice", 100), Pair("bob", 90)];
    var info := map["alice" := Info("US", 5), "bob" := Info("FR", -2)];
    assert FlatPairs(e) == pairs;
    BuildOkIff(pairs, info, 1);
    BuildRows(pairs, info, 1);
    var rows := Build(pairs, info, 1).value;
    assert rows == [PlayerRecord(1, "alice", 100, "US", 5), PlayerRecord(2, "bob", 90, "FR", -2)];
  }

  /** An object page from offset 200: `cara` is ranked 201. */
  lemma ObjsExample()
    ensures Normalize(Payload(Objs([Pair("cara", 50)]), map["cara" := Info("TR", 3)]), 200)
            == Ok([PlayerRecord(201, "cara", 50, "TR", 3)])
  {
    var pairs := [Pair("cara", 50)];
    var info := map["cara" := Info("TR", 3)];
    BuildOkIff(pairs, info, 201);
    BuildRows(pairs, info, 201);
    var rows := Build(pairs, info, 201).value;
    assert rows == [PlayerRecord(201, "cara", 50, "TR", 3)];
  }

  /** Appending one known pair to a successful prefix appends its row, ranked by position. */
  lemma BuildStep(pairs: seq<Pair>, info: map<string, Info>, first: int, k: nat, rows: seq<PlayerRecord>)
    requires k < |pairs| && pairs[k].username in info
    requires Build(pairs[..k], info, first) == Ok(rows)
    ensures Build(pairs[..k + 1], info, first) == Ok(rows + [Row(pairs[k], info, first + k)])
  {
    assert pairs[..k + 1][..k] == pairs[..k];
  }

  /** A missing username right after a successful prefix is the error of the whole input. */
  lemma BuildStopsAt(pairs: seq<Pair>, info: map<string, Info>, first: int, k: nat, rows: seq<PlayerRecord>)
    requires k < |pairs| && pairs[k].username !in info
    requires Build(pairs[..k], info, first) == Ok(rows)
    ensures Build(pairs, info, first) == Err(MissingInfo(pairs[k].username))
  {
    assert pairs[..k + 1][..k] == pairs[..k];
    BuildErrPersists(pairs, info, first, k + 1);
  }

  /** Pair k of a well-formed flattened array sits at indices 2k (a name) and 2k+1 (an amount). */
  lemma FlatPairAt(e: seq<Entry>, k: nat)
    requires WellFormedFlat(e) && 2 * k < |e|
    ensures 2 * k + 1 < |e| && e[2 * k].Name? && e[2 * k + 1].Amount?
    ensures k < |FlatPairs(e)| && FlatPairs(e)[k] == Pair(e[2 * k].name, e[2 * k + 1].money)
  {
  }

  /** Reads entry `i` of `players`: `players[i]` and `players[i+1]`, or `players[i].username` and `.money`. */
  method ReadPair(players: Players, i: nat, ghost k: nat) returns (username: string, money: int)
    requires WellFormed(players) && i < Length(players)
    requires if players.Flat? then i == 2 * k else i == k
    ensures k < |Pairs(players)| && Pairs(players)[k] == Pair(username, money)
  {
    if players.Flat? {
      FlatPairAt(players.entries, k);
      username, money := players.entries[i].name, players.entries[i + 1].money;
    } else {
      username, money := players.pairs[i].username, players.pairs[i].money;
    }
  }

  /** The loop of `setPlayerData`: stride 2 over the flattened shape, stride 1 over objects. */
  method NormalizeRows(p: Payload, offset: nat) returns (r: Result<seq<PlayerRecord>>)
    requires WellFormed(p.players)
    ensures r == Normalize(p, offset)
  {
    ghost var pairs := Pairs(p.players);
    ghost var first := FirstRank(offset);
    var info := p.playersInfo;
    var n := Length(p.players);
    var stride := if p.players.Flat? then 2 else 1;
    var data: seq<PlayerRecord> := [];
    var rank := if offset != 0 then offset + 1 else 1;
    var i := 0;
    while i < n
      invariant if p.players.Flat? then i == 2 * |data| && n == 2 * |pairs| else i == |data| && n == |pairs|
      invariant i <= n
      invariant Build(pairs[..|data|], info, first) == Ok(data)
      invariant rank == first + |data|
      decreases n - i
    {
      ghost var k := |data|;
      var username, money := ReadPair(p.players, i, k);
      if username !in info {
        BuildStopsAt(pairs, info, first, k, data);
        return Err(MissingInfo(username));
      }
      BuildStep(pairs, info, first, k, data);
      data := data + [PlayerRecord(rank, username, money, info[username].country, info[username].dailydiff)];
      rank := rank + 1;
      i := i + stride;
    }
    assert pairs[..|data|] == pairs;
    r := Ok(data);
  }
}
