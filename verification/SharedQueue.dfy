/** The bounded queue as the lanes and the bridge use it, updated in place (src/sf2loki/app.py). */
module SharedQueues {
  import opened BoundedQueue

  /** The queue as an object; one method per stretch of code between two awaits. */
  class SharedQueue<T> {
    const limits: Limits
    var items: seq<Item<T>>
    var bytes: int
    var hands: seq<Hand<T>>
    var taker: Taker<T>
    ghost var yielded: seq<seq<T>>
    ghost var taken: seq<Item<T>>

    ghost function View(): Queue<T>
      reads this
    {
      Queue(items, bytes, hands, taker, yielded, taken)
    }

    constructor (limits: Limits, n: nat)
      ensures this.limits == limits && View() == Opening(n)
    {
      this.limits := limits;
      items, bytes, taker, taken := [], 0, Ready, [];
      hands := seq(n, _ => Fetching);
      yielded := seq(n, _ => []);
    }

    /** The producer's turn at the byte condition: account the value, or sleep until woken. */
    method ChargeTurn(p: nat) returns (admitted: bool)
      requires Enabled(limits, View(), Charge(p))
      modifies this
      ensures View() == Apply(limits, old(View()), Charge(p))
      ensures admitted == hands[p].Putting?
    {
      var h := hands[p];
      if h.cost == 0 {
        hands := hands[p := Putting(h.value, 0)];
        return true;
      }
      admitted := bytes < limits.budget;
      if admitted {
        bytes := bytes + h.cost;
        hands := hands[p := Putting(h.value, h.cost)];
      } else {
        hands := hands[p := Sleeping(h.value, h.cost)];
      }
    }

    method PutItem(p: nat)
      requires Enabled(limits, View(), Put(p))
      modifies this
      ensures View() == Apply(limits, old(View()), Put(p))
    {
      items := items + [Data(p, hands[p].value, hands[p].cost)];
      hands := hands[p := Fetching];
    }

    method PutEnd(p: nat)
      requires Enabled(limits, View(), PutSentinel(p))
      modifies this
      ensures View() == Apply(limits, old(View()), PutSentinel(p))
    {
      items := items + [Sentinel(p)];
      hands := hands[p := Closed];
    }

    method TakeItem() returns (item: Item<T>)
      requires Enabled(limits, View(), Take)
      modifies this
      ensures View() == Apply(limits, old(View()), Take)
      ensures taker == Holding(item)
    {
      item := items[0];
      items := items[1..];
      taker := Holding(item);
    }

    /** Return the item's bytes and wake every sleeper. */
    method ReleaseItem(item: Item<T>, next: Taker<T>)
      requires taker == Holding(item) && Enabled(limits, View(), Release(next))
      modifies this
      ensures View() == Apply(limits, old(View()), Release(next))
    {
      var cost := Cost(item);
      if cost > 0 {
        bytes := bytes - cost;
        hands := Woken(hands);
      }
      taker := next;
      taken := taken + [item];
    }
  }
}
