/**
 * The simple storage contract: a key-value store of texts under non-empty keys and
 * a counter kept in the same store, under the key "counter". Values are held as
 * their bytes. A key never written reads as None; the counter reads its value as a
 * Neo integer (`NeoInteger.Decode`) and `increment` writes the integer's byte form.
 * Because the counter shares the store, `store("counter", v)` sets the counter too.
 */
module SimpleStorage {
  import opened Common
  import NeoInteger

  const CounterKey: string := "counter"

  class Storage {
    var entries: map<string, seq<byte>>

    constructor ()
      ensures entries == map[]
    {
      entries := map[];
    }

    /** `retrieve`: the value last stored under the key, None for a key never written. */
    function Retrieve(key: string): (r: Option<seq<byte>>)
      reads this
      ensures r.None? <==> key !in entries
      ensures r.Some? ==> r.value == entries[key]
    {
      if key in entries then Some(entries[key]) else None
    }

    /** `counter`: the counter's value read as an integer, 0 while it was never written. */
    function Counter(): (c: int)
      reads this
      ensures CounterKey !in entries ==> c == 0
      ensures CounterKey in entries ==> c == NeoInteger.Decode(entries[CounterKey])
    {
      match Retrieve(CounterKey)
      case None => 0
      case Some(v) => NeoInteger.Decode(v)
    }

    /** `store`: refuses the empty key; otherwise writes the value, which `retrieve` then returns. */
    method Store(key: string, value: seq<byte>) returns (ok: bool)
      modifies this
      ensures ok <==> key != ""
      ensures entries == if ok then old(entries)[key := value] else old(entries)
      ensures ok ==> Retrieve(key) == Some(value)
    {
      if key == "" {
        return false;
      }
      entries := entries[key := value];
      return true;
    }

    /** `increment`: returns the previous counter plus one, which is then the counter; no other key changes. */
    method Increment() returns (n: int)
      modifies this
      ensures n == old(Counter()) + 1
      ensures Counter() == n
      ensures entries == old(entries)[CounterKey := NeoInteger.Encode(n)]
    {
      var value := Retrieve(CounterKey);
      var current := if value.None? then 0 else NeoInteger.Decode(value.value);
      n := current + 1;
      NeoInteger.EncodeDecode(n);
      entries := entries[CounterKey := NeoInteger.Encode(n)];
    }
  }

  /** The counter starts at 0 and counts the increments. */
  method CounterCounts() returns (start: int, first: int, second: int, now: int)
    ensures start == 0 && first == 1 && second == 2 && now == 2
  {
    var s := new Storage();
    start := s.Counter();
    first := s.Increment();
    second := s.Increment();
    now := s.Counter();
  }

  /** Storing the text "A" under "counter" sets the counter to 65, the value of that byte. */
  method StoreOverwritesCounter() returns (stored: bool, counter: int, next: int)
    ensures stored && counter == 65 && next == 66
  {
    var s := new Storage();
    var _ := s.Increment();
    stored := s.Store(CounterKey, [65]);
    counter := s.Counter();
    next := s.Increment();
  }
}
