/**
 * The lobby's join-or-create matchmaking over the shared `rooms` table: a
 * player joins the oldest room still waiting for players, or opens a new
 * one when there is none. Rows of the table are values; the table itself
 * (`RoomTable`) and the lobby component's local state (`Lobby`) are objects
 * whose fields the operations update in place. The database queries become
 * methods of `RoomTable`; their failures are inputs.
 */
module Matchmaking {
  import opened Options

  /** A roster entry stored in a room row. */
  datatype LobbyPlayer = LobbyPlayer(name: string, wins: int)

  /** A row of the `rooms` table. */
  datatype Room = Room(id: int, players: seq<LobbyPlayer>, status: string)

  const Waiting: string := "waiting"
  const Active: string := "active"

  /** The roster entry of a player who has just arrived. */
  function Arrival(username: string): LobbyPlayer {
    LobbyPlayer(username, 0)
  }

  /** The row a player who finds no waiting room inserts (its id comes from the database). */
  function NewRoom(id: int, username: string): Room {
    Room(id, [Arrival(username)], Waiting)
  }

  /** No two rows share an id. */
  predicate UniqueIds(rows: seq<Room>) {
    forall j, k :: 0 <= j < k < |rows| ==> rows[j].id != rows[k].id
  }

  /** No row has id `id`. */
  predicate FreshId(rows: seq<Room>, id: int) {
    forall k :: 0 <= k < |rows| ==> rows[k].id != id
  }

  /**
   * The query "status = waiting, ordered by id ascending, first row": the
   * position of a waiting row whose id is the smallest among waiting rows,
   * or None when no row is waiting.
   */
  function OldestWaiting(rows: seq<Room>): (r: Option<nat>)
    ensures r.Some? ==> r.value < |rows| && rows[r.value].status == Waiting
    ensures r.Some? ==>
      forall j :: 0 <= j < |rows| && rows[j].status == Waiting ==> rows[r.value].id <= rows[j].id
    ensures r.None? <==> forall j :: 0 <= j < |rows| ==> rows[j].status != Waiting
  {
    if |rows| == 0 then None
    else
      var rest := OldestWaiting(rows[1..]);
      if rows[0].status == Waiting && (rest.None? || rows[0].id <= rows[1 + rest.value].id) then Some(0)
      else if rest.Some? then Some(1 + rest.value)
      else None
  }

  /** The room the join goes to: none when the query itself failed. */
  function Choice(rows: seq<Room>, queryFails: bool): (r: Option<nat>)
    ensures queryFails ==> r.None?
    ensures !queryFails ==> r == OldestWaiting(rows)
    ensures r.Some? ==> r.value < |rows| && rows[r.value].status == Waiting
  {
    if queryFails then None else OldestWaiting(rows)
  }

  /**
   * The stored row after a player joins it: the player is appended to the
   * roster, and the status becomes active once the roster has two players.
   */
  function Joined(room: Room, username: string): (r: Room)
    ensures r.id == room.id
    ensures |r.players| == |room.players| + 1
    ensures r.players[..|room.players|] == room.players && r.players[|room.players|] == Arrival(username)
    ensures r.status == Active <==> |r.players| >= 2 || room.status == Active
    ensures r.status != Active ==> r.status == room.status
  {
    var updatedPlayers := room.players + [Arrival(username)];
    if |updatedPlayers| >= 2 then room.(players := updatedPlayers, status := Active)
    else room.(players := updatedPlayers)
  }

  /** The table after one join-or-create by `username`. */
  function AfterJoinGame(rows: seq<Room>, username: string, queryFails: bool, insertFails: bool, newId: int): (r: seq<Room>)
    ensures Choice(rows, queryFails).Some? ==>
      var i := Choice(rows, queryFails).value;
      |r| == |rows| && r[i] == Joined(rows[i], username)
      && forall k :: 0 <= k < |rows| && k != i ==> r[k] == rows[k]
    ensures Choice(rows, queryFails).None? && insertFails ==> r == rows
    ensures Choice(rows, queryFails).None? && !insertFails ==> r == rows + [NewRoom(newId, username)]
  {
    match Choice(rows, queryFails)
    case Some(i) => rows[i := Joined(rows[i], username)]
    case None => if insertFails then rows else rows + [NewRoom(newId, username)]
  }

  /** The join-or-create found no room and the insert failed: nothing was stored. */
  predicate JoinGameFailed(rows: seq<Room>, queryFails: bool, insertFails: bool) {
    Choice(rows, queryFails).None? && insertFails
  }

  /** The number of players over all rooms. */
  function TotalPlayers(rows: seq<Room>): nat {
    if |rows| == 0 then 0 else TotalPlayers(rows[..|rows| - 1]) + |rows[|rows| - 1].players|
  }

  /** The number of rooms still waiting for players. */
  function CountWaiting(rows: seq<Room>): nat {
    if |rows| == 0 then 0
    else CountWaiting(rows[..|rows| - 1]) + (if rows[|rows| - 1].status == Waiting then 1 else 0)
  }

  /** Replacing one row changes the player total by the difference of the two rosters. */
  lemma {:induction false} TotalPlayersUpdate(rows: seq<Room>, i: nat, r: Room)
    requires i < |rows|
    ensures TotalPlayers(rows[i := r]) == TotalPlayers(rows) - |rows[i].players| + |r.players|
    decreases |rows|
  {
    var n := |rows|;
    if i < n - 1 {
      assert rows[i := r][..n - 1] == rows[..n - 1][i := r];
      TotalPlayersUpdate(rows[..n - 1], i, r);
    } else {
      assert rows[i := r][..n - 1] == rows[..n - 1];
    }
  }

  /** Replacing one row changes the waiting count by the change of that row's status. */
  lemma {:induction false} CountWaitingUpdate(rows: seq<Room>, i: nat, r: Room)
    requires i < |rows|
    ensures CountWaiting(rows[i := r]) ==
      CountWaiting(rows) - (if rows[i].status == Waiting then 1 else 0) + (if r.status == Waiting then 1 else 0)
    decreases |rows|
  {
    var n := |rows|;
    if i < n - 1 {
      assert rows[i := r][..n - 1] == rows[..n - 1][i := r];
      CountWaitingUpdate(rows[..n - 1], i, r);
    } else {
      assert rows[i := r][..n - 1] == rows[..n - 1];
    }
  }

  /**
   * Every join-or-create adds exactly one player to the table, except when it
   * found no room and then failed to create one, which adds none.
   */
  lemma JoinGameAddsOnePlayer(rows: seq<Room>, username: string, queryFails: bool, insertFails: bool, newId: int)
    ensures TotalPlayers(AfterJoinGame(rows, username, queryFails, insertFails, newId)) ==
      TotalPlayers(rows) + (if JoinGameFailed(rows, queryFails, insertFails) then 0 else 1)
  {
    match Choice(rows, queryFails)
    case Some(i) =>
      TotalPlayersUpdate(rows, i, Joined(rows[i], username));
    case None =>
      if !insertFails {
        var after := rows + [NewRoom(newId, username)];
        assert after[..|after| - 1] == rows;
      }
  }

  /**
   * Creating a room adds one waiting room; joining one closes it exactly when
   * it already had a player, and otherwise leaves the waiting count alone.
   */
  lemma JoinGameWaitingCount(rows: seq<Room>, username: string, queryFails: bool, insertFails: bool, newId: int)
    ensures var after := AfterJoinGame(rows, username, queryFails, insertFails, newId);
      match Choice(rows, queryFails)
      case Some(i) => CountWaiting(after) == CountWaiting(rows) - (if |rows[i].players| >= 1 then 1 else 0)
      case None => CountWaiting(after) == CountWaiting(rows) + (if insertFails then 0 else 1)
  {
    match Choice(rows, queryFails)
    case Some(i) =>
      CountWaitingUpdate(rows, i, Joined(rows[i], username));
    case None =>
      if !insertFails {
        var after := rows + [NewRoom(newId, username)];
        assert after[..|after| - 1] == rows;
      }
  }

  /** Ids stay unique, provided the database hands out an id no row has. */
  lemma JoinGameKeepsIdsUnique(rows: seq<Room>, username: string, queryFails: bool, insertFails: bool, newId: int)
    requires UniqueIds(rows) && FreshId(rows, newId)
    ensures UniqueIds(AfterJoinGame(rows, username, queryFails, insertFails, newId))
  {
  }

  /**
   * Joining sets the stored room active exactly when its updated roster has at
   * least two players (an already active room stays so); creating a room
   * appends a waiting row and never activates anything; no other row changes.
   */
  lemma JoinGameActivation(rows: seq<Room>, username: string, queryFails: bool, insertFails: bool, newId: int)
    ensures var after := AfterJoinGame(rows, username, queryFails, insertFails, newId);
      match Choice(rows, queryFails)
      case Some(i) =>
        && |after| == |rows|
        && (after[i].status == Active <==> |rows[i].players| + 1 >= 2)
        && (forall k :: 0 <= k < |rows| && k != i ==> after[k] == rows[k])
      case None =>
        && after[..|rows|] == rows
        && (!insertFails ==> |after| == |rows| + 1 && after[|rows|].status == Waiting)
  {
  }

  /**
   * The shape of a table that only this lobby writes: a waiting room holds
   * exactly one player and an active room exactly two.
   */
  predicate LobbyShaped(rows: seq<Room>) {
    forall k :: 0 <= k < |rows| ==>
      || (rows[k].status == Waiting && |rows[k].players| == 1)
      || (rows[k].status == Active && |rows[k].players| == 2)
  }

  /**
   * In such a table every join lands in a one-player room and activates it,
   * so the shape is kept and no roster ever grows past two players.
   */
  lemma JoinGameKeepsLobbyShape(rows: seq<Room>, username: string, queryFails: bool, insertFails: bool, newId: int)
    requires LobbyShaped(rows)
    ensures LobbyShaped(AfterJoinGame(rows, username, queryFails, insertFails, newId))
    ensures Choice(rows, queryFails).Some? ==>
      var i := Choice(rows, queryFails).value;
      var after := AfterJoinGame(rows, username, queryFails, insertFails, newId);
      |after[i].players| == 2 && after[i].status == Active
  {
  }

  /** With unique ids, a row's id picks out that row alone. */
  lemma OnlyRowWithId(rows: seq<Room>, i: nat)
    requires UniqueIds(rows) && i < |rows|
    ensures forall k :: 0 <= k < |rows| && k != i ==> rows[k].id != rows[i].id
  {
  }

  /** The `rooms` table. */
  class RoomTable {
    var rows: seq<Room>

    /** The database keeps ids unique. */
    ghost predicate Valid()
      reads this
    {
      UniqueIds(rows)
    }

    constructor (initial: seq<Room>)
      requires UniqueIds(initial)
      ensures Valid() && rows == initial
    {
      rows := initial;
    }

    /**
     * Insert a row with the given roster and status under the id the database
     * assigns; on failure nothing is stored and None is returned.
     */
    method Insert(players: seq<LobbyPlayer>, status: string, newId: int, fails: bool) returns (stored: Option<Room>)
      requires Valid() && FreshId(rows, newId)
      modifies this
      ensures Valid()
      ensures fails ==> rows == old(rows) && stored.None?
      ensures !fails ==> rows == old(rows) + [Room(newId, players, status)] && stored == Some(Room(newId, players, status))
    {
      if fails {
        stored := None;
      } else {
        var row := Room(newId, players, status);
        rows := rows + [row];
        stored := Some(row);
      }
    }

    /** Set the roster of every row with id `id`. */
    method UpdatePlayers(id: int, players: seq<LobbyPlayer>)
      requires Valid()
      modifies this
      ensures Valid() && |rows| == |old(rows)|
      ensures forall k :: 0 <= k < |rows| ==>
        rows[k] == if old(rows)[k].id == id then old(rows)[k].(players := players) else old(rows)[k]
    {
      var before := rows;
      rows := seq(|before|, k requires 0 <= k < |before| =>
        if before[k].id == id then before[k].(players := players) else before[k]);
    }

    /** Set the status of every row with id `id`. */
    method UpdateStatus(id: int, status: string)
      requires Valid()
      modifies this
      ensures Valid() && |rows| == |old(rows)|
      ensures forall k :: 0 <= k < |rows| ==>
        rows[k] == if old(rows)[k].id == id then old(rows)[k].(status := status) else old(rows)[k]
    {
      var before := rows;
      rows := seq(|before|, k requires 0 <= k < |before| =>
        if before[k].id == id then before[k].(status := status) else before[k]);
    }
  }

  /** What the lobby page shows. */
  datatype LobbyScreen =
    | JoinButton(disabled: bool, caption: string)
    | RoomInfo(playerCount: nat, startOffered: bool)

  /** The lobby component's local state: the room it shows and whether a join is in progress. */
  class Lobby {
    var room: Option<Room>
    var loading: bool

    constructor ()
      ensures room.None? && !loading
    {
      room := None;
      loading := false;
    }

    /**
     * An UPDATE notification for any row of the table replaces the local room
     * with that row, whichever room it is.
     */
    method OnRoomUpdated(row: Room)
      modifies this`room
      ensures room == Some(row)
    {
      room := Some(row);
    }

    /**
     * `handleJoinGame` by `username`. `queryFails` and `insertFails` say whether
     * the select and the insert failed; `newId` is the id the database gives
     * an inserted row. The table becomes `AfterJoinGame` of the old table; the
     * local room becomes the chosen row with only its roster replaced (its
     * status is not refreshed, even when the stored row became active), or the
     * created row, or stays as it was when creation failed; `loading` ends
     * false on every path.
     */
    method HandleJoinGame(db: RoomTable, username: string, queryFails: bool, insertFails: bool, newId: int)
      requires db.Valid() && FreshId(db.rows, newId)
      modifies this, db
      ensures db.Valid()
      ensures db.rows == AfterJoinGame(old(db.rows), username, queryFails, insertFails, newId)
      ensures !loading
      ensures match Choice(old(db.rows), queryFails)
        case Some(i) =>
          room == Some(old(db.rows)[i].(players := old(db.rows)[i].players + [Arrival(username)]))
          && room.value.status == Waiting
          && (StartOffered() <==> db.rows[i].status == Active)
        case None =>
          room == (if insertFails then old(room) else Some(NewRoom(newId, username)))
          && (!insertFails ==> !StartOffered())
    {
      loading := true;
      var found := Choice(db.rows, queryFails);
      if found.None? {
        var data := db.Insert([Arrival(username)], Waiting, newId, insertFails);
        if data.None? {
          loading := false;
          return;
        }
        room := data;
      } else {
        ghost var before := db.rows;
        var i := found.value;
        var chosen := db.rows[i];
        var updatedPlayers := chosen.players + [Arrival(username)];
        db.UpdatePlayers(chosen.id, updatedPlayers);
        if |updatedPlayers| >= 2 {
          db.UpdateStatus(chosen.id, Active);
        }
        assert db.rows == before[i := Joined(chosen, username)] by {
          OnlyRowWithId(before, i);
        }
        room := Some(chosen.(players := updatedPlayers));
      }
      loading := false;
    }

    /** The Start Game button is offered exactly when the shown room has at least two players. */
    function StartOffered(): (b: bool)
      reads this
      ensures b ==> room.Some?
      ensures room.Some? ==> (b <==> |room.value.players| >= 2)
    {
      room.Some? && |room.value.players| >= 2
    }

    /**
     * The page: without a room, the join button, disabled and relabelled while
     * a join is in progress; with a room, its roster size and the start offer.
     */
    function View(): (v: LobbyScreen)
      reads this
      ensures v.JoinButton? <==> room.None?
      ensures v.JoinButton? ==> v.disabled == loading && v.caption == (if loading then "Joining..." else "Join Game")
      ensures v.RoomInfo? ==> v.playerCount == |room.value.players| && (v.startOffered <==> StartOffered())
    {
      match room
      case None => JoinButton(loading, if loading then "Joining..." else "Join Game")
      case Some(r) => RoomInfo(|r.players|, StartOffered())
    }
  }
}
