/** The objects of the minimal core: its clock, and its log, tables and directories with the loop over a plan. */
module CoreObjects {
  import opened Identity
  import opened Core
  import opened CoreScript

  class Clock {
    var n: nat
    var killAt: int

    constructor (killAt: int)
      ensures Value() == Time(0, killAt)
    {
      this.n, this.killAt := 0, killAt;
    }

    function Value(): Time
      reads this
    {
      Time(n, killAt)
    }

    /** False is the crash. */
    method TickOnce(ghost d: Disk) returns (alive: bool)
      modifies this`n
      ensures After(d, Value(), alive) == Tick(d, old(Value()))
      ensures n == old(n) + 1 && (alive <==> killAt == 0 || n != killAt)
    {
      n := n + 1;
      alive := !(killAt != 0 && n == killAt);
    }
  }

  function After(d: Disk, t: Time, alive: bool): Run {
    if alive then Alive(d, t) else Crashed(d)
  }

  class Coordinator {
    var wal: seq<Rec>
    var charges: seq<(string, int)>
    var keys: map<Key, string>
    var committed: map<Key, string>
    var overlay: map<Key, string>

    constructor ()
      ensures Contents() == BLANK
    {
      wal, charges, keys, committed, overlay := [], [], map[], map[], map[];
    }

    function Contents(): Disk
      reads this
    {
      Disk(wal, charges, keys, committed, overlay)
    }

    method Charge(key: Key, orderId: string, amount: int, clock: Clock) returns (alive: bool)
      modifies this`charges, this`keys, clock
      ensures After(Contents(), clock.Value(), alive) ==
              SqlCharge(old(Contents()), key, orderId, amount, old(clock.Value()))
    {
      if key in keys {
        return true;
      }
      alive := clock.TickOnce(Contents());
      if !alive {
        return;
      }
      charges, keys := charges + [(orderId, amount)], keys[key := "charged:" + orderId];
      alive := clock.TickOnce(Contents());
    }

    method Receipt(key: Key, orderId: string, clock: Clock) returns (alive: bool)
      modifies this`committed, this`overlay, clock
      ensures After(Contents(), clock.Value(), alive) == FsReceipt(old(Contents()), key, orderId, old(clock.Value()))
    {
      if key in committed {
        return true;
      }
      overlay := overlay[key := orderId + "\n"];
      alive := clock.TickOnce(Contents());
      if !alive {
        return;
      }
      committed, overlay := committed[key := overlay[key]], overlay - {key};
      alive := clock.TickOnce(Contents());
    }

    method RunStep(turn: string, ordinal: nat, entry: Entry, clock: Clock) returns (alive: bool)
      modifies this, clock
      ensures After(Contents(), clock.Value(), alive) ==
              RunEntry(old(Contents()), turn, ActionKey(turn, ordinal, entry), old(clock.Value()))
    {
      var key := ActionKey(turn, ordinal, entry);
      wal := wal + [Rec(ActionPrepared, turn, Some(key))];
      alive := clock.TickOnce(Contents());
      if !alive {
        return;
      }
      match entry {
        case Sql(o, a) => alive := Charge(key, o, a, clock);
        case Fs(o) => alive := Receipt(key, o, clock);
        case Other(_) =>
      }
      if !alive {
        return;
      }
      wal := wal + [Rec(ObservationCommitted, turn, Some(key))];
      alive := clock.TickOnce(Contents());
    }

    /** Running the turn and recovering it are the same method. */
    method Run(turn: string, plan: seq<Entry>, clock: Clock) returns (alive: bool)
      modifies this, clock
      ensures After(Contents(), clock.Value(), alive) == RunTurn(old(Contents()), turn, plan, old(clock.Value()))
      ensures Plays(old(Contents()), TurnActs(old(Contents()), turn, plan), old(clock.Value()),
                    After(Contents(), clock.Value(), alive))
    {
      hide RunEntry, TurnActs, Plays;
      TurnPlays(Contents(), turn, plan, clock.Value());
      if !Has(wal, BeginTurn, turn) {
        wal := wal + [Rec(BeginTurn, turn, None)];
      }
      alive := clock.TickOnce(Contents());
      if !alive {
        return;
      }
      var i := 0;
      while i < |plan|
        invariant 0 <= i <= |plan|
        invariant RunFrom(Contents(), turn, plan, i, clock.Value()) ==
            RunTurn(old(Contents()), turn, plan, old(clock.Value()))
      {
        alive := RunStep(turn, i, plan[i], clock);
        if !alive {
          return;
        }
        i := i + 1;
      }
      if !Has(wal, TurnCommitted, turn) {
        wal := wal + [Rec(TurnCommitted, turn, None)];
      }
      alive := clock.TickOnce(Contents());
    }
  }
}
