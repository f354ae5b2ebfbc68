/**
 * The game's broadcast events: four independent multicast delegates, each an
 * ordered invocation list, and a trigger per event that invokes that list
 * synchronously when it is not empty.
 */
module Events {

  /** The four events; there are no others. */
  datatype GameEvent = BeforeGameStart | WorldReset | GameStart | GameOver

  /**
   * A subscribed delegate, known by an opaque identity. What a handler does
   * when it is invoked is outside this model; a trigger reports which
   * handlers it invoked, in order.
   */
  type Handler = nat

  /** Position of the last occurrence of `h` in `s`, or -1 when there is none. */
  function LastIndexOf(s: seq<Handler>, h: Handler): (k: int)
    ensures -1 <= k < |s|
    ensures k == -1 <==> h !in s
    ensures 0 <= k ==> s[k] == h && h !in s[k + 1..]
  {
    if |s| == 0 then -1
    else if s[|s| - 1] == h then |s| - 1
    else
      var k := LastIndexOf(s[..|s| - 1], h);
      assert s[k + 1..] == s[..|s| - 1][k + 1..] + [s[|s| - 1]];
      k
  }

  /**
   * C# `event -= h` on a single-method delegate, scanning from the end: the
   * first `h` met is dropped and everything else is kept in order.
   */
  function RemoveLast(s: seq<Handler>, h: Handler): (r: seq<Handler>)
    ensures h !in s ==> r == s
    ensures h in s ==> |r| == |s| - 1
  {
    if |s| == 0 then []
    else
      var init, last := s[..|s| - 1], s[|s| - 1];
      assert s == init + [last];
      if last == h then init
      else RemoveLast(init, h) + [last]
  }

  /**
   * `RemoveLast` removes the LAST occurrence of `h` (the one `LastIndexOf`
   * finds) and keeps the rest in order; without an occurrence the list is
   * unchanged.
   */
  lemma {:induction false} RemoveLastDropsLastOccurrence(s: seq<Handler>, h: Handler)
    ensures var k := LastIndexOf(s, h); 0 <= k ==> RemoveLast(s, h) == s[..k] + s[k + 1..]
    decreases |s|
  {
    if |s| > 0 {
      var init, last := s[..|s| - 1], s[|s| - 1];
      assert s == init + [last];
      if last != h {
        RemoveLastDropsLastOccurrence(init, h);
        var k := LastIndexOf(init, h);
        assert LastIndexOf(s, h) == k;
        if 0 <= k {
          assert s[..k] == init[..k];
          assert s[k + 1..] == init[k + 1..] + [last];
        }
      }
    }
  }

  /** The static invocation lists of the four events. */
  class EventManager {
    var beforeGameStart: seq<Handler>
    var worldReset: seq<Handler>
    var gameStart: seq<Handler>
    var gameOver: seq<Handler>

    /** At start-up no event has a subscriber. */
    constructor ()
      ensures forall e :: Subscribers(e) == []
    {
      beforeGameStart, worldReset, gameStart, gameOver := [], [], [], [];
    }

    /** The invocation list of event `e`. */
    function Subscribers(e: GameEvent): seq<Handler>
      reads this
    {
      match e
      case BeforeGameStart => beforeGameStart
      case WorldReset => worldReset
      case GameStart => gameStart
      case GameOver => gameOver
    }

    /** Replaces the invocation list of `e`, and only that one. */
    method SetSubscribers(e: GameEvent, list: seq<Handler>)
      modifies this
      ensures Subscribers(e) == list
      ensures forall o :: o != e ==> Subscribers(o) == old(Subscribers(o))
    {
      match e
      case BeforeGameStart => beforeGameStart := list;
      case WorldReset => worldReset := list;
      case GameStart => gameStart := list;
      case GameOver => gameOver := list;
    }

    /** `e += h`: `h` is appended to the list of `e` and to no other list. */
    method Subscribe(e: GameEvent, h: Handler)
      modifies this
      ensures Subscribers(e) == old(Subscribers(e)) + [h]
      ensures forall o :: o != e ==> Subscribers(o) == old(Subscribers(o))
    {
      SetSubscribers(e, Subscribers(e) + [h]);
    }

    /** `e -= h`: the last subscription of `h` to `e` is dropped; other events keep theirs. */
    method Unsubscribe(e: GameEvent, h: Handler)
      modifies this
      ensures Subscribers(e) == RemoveLast(old(Subscribers(e)), h)
      ensures forall o :: o != e ==> Subscribers(o) == old(Subscribers(o))
    {
      SetSubscribers(e, RemoveLast(Subscribers(e), h));
    }

    /**
     * Raises `e`: invokes exactly the handlers subscribed to `e`, in
     * subscription order (none, and no error, when the list is empty).
     * No invocation list is changed: the method modifies nothing.
     */
    method Trigger(e: GameEvent) returns (invoked: seq<Handler>)
      ensures invoked == Subscribers(e)
    {
      var list := Subscribers(e);
      if list != [] {
        invoked := list;
      } else {
        invoked := [];
      }
    }

    /** Raised at game initialisation, before the game actually starts. */
    method TriggerBeforeGameStart() returns (invoked: seq<Handler>)
      ensures invoked == beforeGameStart
    {
      invoked := Trigger(BeforeGameStart);
    }

    /** Raised when the world's coordinates are reset. */
    method TriggerWorldReset() returns (invoked: seq<Handler>)
      ensures invoked == worldReset
    {
      invoked := Trigger(WorldReset);
    }

    /** Raised when the game starts. */
    method TriggerGameStart() returns (invoked: seq<Handler>)
      ensures invoked == gameStart
    {
      invoked := Trigger(GameStart);
    }

    /** Raised when the player loses. */
    method TriggerGameOver() returns (invoked: seq<Handler>)
      ensures invoked == gameOver
    {
      invoked := Trigger(GameOver);
    }
  }
}
