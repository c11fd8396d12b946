/**
 The hub itself: its views of the tables, the claims it has handed out, and the mailbox that it handles
 one message at a time. Each of its methods is one step of the protocol of one table per player.
 */
module Hub {
  import opened Common
  import opened Playing

  class Coordinator {
    var tables: map<int, Roster>
    var mailbox: seq<Message>
    var playingClaims: map<int, int>
    var operations: map<int, Operation>

    constructor (views: map<int, Roster>)
      ensures tables == views && mailbox == [] && playingClaims == map[] && operations == map[]
    {
      tables, mailbox, playingClaims, operations := views, [], map[], map[];
    }

    /** The whole protocol, given what the tables hold. */
    function Contents(net: State): State
      reads this
    {
      net.(views := tables, queue := mailbox, claims := playingClaims, ops := operations)
    }

    /** Asks every view but one whether it shows the user as a player. */
    method PlayingElsewhere(user: int, except: Option<int>, ghost net: State) returns (elsewhere: bool)
      ensures elsewhere == Elsewhere(Contents(net), user, except)
    {
      var rest := tables.Keys;
      while rest != {}
        invariant rest <= tables.Keys
        invariant forall t :: t in tables && t !in rest ==> Some(t) == except || !Shows(Some(tables[t]), user)
        decreases |rest|
      {
        SomeNumber(rest);
        var t :| t in rest;
        if Some(t) != except && !tables[t].replay && user in tables[t].players {
          assert Shows(ViewOf(Contents(net), t), user);
          return true;
        }
        rest := rest - {t};
      }
      elsewhere := false;
    }

    /** Sends a player to a table, unless the player may play elsewhere or is claimed already. */
    method RouteJoin(op: int, user: int, table: int, current: bool, queued: bool, ghost net: State) returns (routed: bool)
      requires op !in operations
      modifies this
      ensures routed <==> current && queued && old(Enabled(Contents(net), Route(op, user, table)))
      ensures routed ==> Contents(net) == old(Apply(Contents(net), Route(op, user, table)))
      ensures !routed ==> Contents(net) == old(Contents(net))
    {
      if !current {
        return false;
      }
      var elsewhere := PlayingElsewhere(user, Some(table), net);
      if elsewhere || table !in tables || user in playingClaims {
        return false;
      }
      // A claim that was taken for a table whose mailbox is full is given back at once.
      if queued {
        playingClaims := playingClaims[user := op];
        operations := operations[op := Join(table, user, Started)];
      }
      routed := queued;
    }

    /** Begins a new table for a player; its identity has never been used. */
    method CreateTable(op: int, user: int, table: int, current: bool, permit: bool, ghost net: State) returns (begun: bool)
      requires op !in operations && table !in net.used
      modifies this
      ensures begun <==> current && permit && old(Enabled(Contents(net), Prepare(op, user, table)))
      ensures begun ==> Contents(net.(used := net.used + {table})) == old(Apply(Contents(net), Prepare(op, user, table)))
      ensures !begun ==> Contents(net) == old(Contents(net))
    {
      if !current {
        return false;
      }
      var elsewhere := PlayingElsewhere(user, None, net);
      if elsewhere || user in playingClaims {
        return false;
      }
      if permit {
        playingClaims := playingClaims[user := op];
        operations := operations[op := Create(table, user, Started)];
      }
      begun := permit;
    }

    /** Forgets an operation and every claim that it held. */
    method Free(op: int, ghost net: State)
      modifies this`playingClaims, this`operations
      ensures Contents(net) == Freed(old(Contents(net)), op)
    {
      playingClaims := map user | user in playingClaims && playingClaims[user] != op :: playingClaims[user];
      operations := operations - {op};
    }

    /** Whether one of several users plays elsewhere. */
    method SomePlayElsewhere(users: set<int>, except: int, ghost net: State) returns (some: bool)
      ensures some == exists user <- users :: Elsewhere(Contents(net), user, Some(except))
    {
      var rest := users;
      while rest != {}
        invariant rest <= users
        invariant forall user :: user in users && user !in rest ==> !Elsewhere(Contents(net), user, Some(except))
        decreases |rest|
      {
        SomeNumber(rest);
        var user :| user in rest;
        var elsewhere := PlayingElsewhere(user, Some(except), net);
        if elsewhere {
          return true;
        }
        rest := rest - {user};
      }
      some := false;
    }

    /** Handles the first message of the mailbox. */
    method Receive(ghost net: State)
      requires mailbox != []
      modifies this
      ensures Contents(net) == Delivered(old(Contents(net)))
    {
      var m := mailbox[0];
      mailbox := mailbox[1..];
      match m {
        case Effects(table, roster) =>
          if table in tables {
            tables := tables[table := roster];
          }
        case Retire(table) =>
          tables := tables - {table};
        case Install(op, table, roster, accepted) =>
          if accepted {
            tables := tables[table := roster];
          }
          if op in operations {
            if accepted {
              Free(op, net);
            } else {
              operations := operations[op := operations[op].(stage := Refused)];
            }
          }
        case Finished(op) =>
          Free(op, net);
        case Ask(op) =>
          CheckPlaying(op, net);
      }
    }

    /** Answers whether the players that a table hands over may play at the new one. */
    method CheckPlaying(op: int, ghost net: State)
      modifies this`operations
      ensures var s := old(Contents(net));
              Contents(net) == if At(s, op, Asking) && s.ops[op].Move? then
                                 Staged(s, op, if exists user <- s.ops[op].users :: Elsewhere(s, user, Some(s.ops[op].source)) then Refused else Allowed)
                               else s
    {
      if op in operations && operations[op].stage == Asking && operations[op].Move? {
        var o := operations[op];
        var some := SomePlayElsewhere(o.users, o.source, net);
        operations := operations[op := Move(o.source, o.target, o.users, o.retire, if some then Refused else Allowed)];
      }
    }
  }

  /** A player whom the hub lets in somewhere plays nowhere else at that moment. */
  lemma RoutedPlaysNowhereElse(s: State, op: int, user: int, table: int)
    requires Inv(s) && Enabled(s, Route(op, user, table))
    ensures forall t :: t != table ==> !Plays(s, t, user)
  {
    hide CatchesUp, Clears, Owned, Fresh, Orderly, Unique;
    forall t | t != table
      ensures !Plays(s, t, user)
    {
      assert !Bridged(s, 0, t, user);
      ElsewhereIsSound(s, user, t, Some(table));
    }
  }
}
