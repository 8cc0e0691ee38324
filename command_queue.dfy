/*
 * The command queue of the NTai skirmish AI: a double-ended queue of unit
 * commands that stamps every command it takes in with a fresh tag drawn from a
 * wrapping counter.
 */
module CommandQueue {

  /** Tags stay within a float's exactly representable integers: 2^24. */
  const MaxTagValue: int := 0x100_0000

  /** Number of distinct tags the counter hands out: 1 .. MaxTagValue - 1. */
  const TagPeriod: int := MaxTagValue - 1

  datatype QueueType = CommandQueueType | NewUnitQueueType | BuildQueueType

  /** A unit command. Only `tag` is touched by the queue; the other fields stand in
      for the command's id, options and parameters, which it copies unchanged. */
  datatype Command = Command(id: int, options: int, params: seq<real>, tag: int)

  /** The counter value after one `GetNextTag`: one more, or back to 1 when that
      would reach `MaxTagValue`. */
  function NextTag(counter: int): (r: int)
    requires 0 <= counter < MaxTagValue
    ensures 1 <= r < MaxTagValue
    ensures r == counter + 1 || (r == 1 && counter + 1 == MaxTagValue)
  {
    if counter + 1 >= MaxTagValue then 1 else counter + 1
  }

  /** The counter after `k` successive tag assignments starting from `counter`. */
  function TagAfter(counter: int, k: nat): (r: int)
    requires 0 <= counter < MaxTagValue
    ensures 0 <= r < MaxTagValue
  {
    if k == 0 then counter else NextTag(TagAfter(counter, k - 1))
  }

  /** One step of a number modulo the period: up by one, or back to 0 at the top. */
  lemma ModStep(x: nat)
    ensures (x + 1) % TagPeriod == if x % TagPeriod == TagPeriod - 1 then 0 else x % TagPeriod + 1
  {
    var q, r := x / TagPeriod, x % TagPeriod;
    assert x == q * TagPeriod + r;
    if r == TagPeriod - 1 {
      assert x + 1 == (q + 1) * TagPeriod;
    } else {
      assert x + 1 == q * TagPeriod + (r + 1);
    }
  }

  /** Adding one period does not change a number modulo the period. */
  lemma ModPeriod(x: nat)
    ensures (x + TagPeriod) % TagPeriod == x % TagPeriod
  {
    var q, r := x / TagPeriod, x % TagPeriod;
    assert x == q * TagPeriod + r;
    assert x + TagPeriod == (q + 1) * TagPeriod + r;
  }

  /** The tags cycle through 1 .. MaxTagValue - 1: the k-th tag (k >= 1) is determined
      by `counter + k - 1` modulo the period. */
  lemma {:induction false} TagAfterCycle(counter: int, k: nat)
    requires 0 <= counter < MaxTagValue && k >= 1
    ensures TagAfter(counter, k) == (counter + k - 1) % TagPeriod + 1
  {
    if k > 1 {
      TagAfterCycle(counter, k - 1);
      ModStep(counter + k - 2);
    } else if counter == TagPeriod {
      assert TagPeriod % TagPeriod == 0;
    }
  }

  /** Every assignment yields a tag in 1 .. MaxTagValue - 1. */
  lemma TagInRange(counter: int, k: nat)
    requires 0 <= counter < MaxTagValue && k >= 1
    ensures 1 <= TagAfter(counter, k) < MaxTagValue
  {
    TagAfterCycle(counter, k);
  }

  /** Away from the wrap point two successive tags differ by exactly one. */
  lemma SuccessiveTags(counter: int, k: nat)
    requires 0 <= counter < MaxTagValue
    requires TagAfter(counter, k) + 1 < MaxTagValue
    ensures TagAfter(counter, k + 1) == TagAfter(counter, k) + 1
  {
  }

  /** Fewer than `TagPeriod` assignments apart, two tags are different: a tag is
      reused only after the counter has gone all the way round. */
  lemma TagsDistinctWithinPeriod(counter: int, i: nat, j: nat)
    requires 0 <= counter < MaxTagValue
    requires 1 <= i < j && j - i < TagPeriod
    ensures TagAfter(counter, i) != TagAfter(counter, j)
  {
    TagAfterCycle(counter, i);
    TagAfterCycle(counter, j);
  }

  /** After exactly one full period the same tag comes round again. */
  lemma TagsRepeatAfterPeriod(counter: int, k: nat)
    requires 0 <= counter < MaxTagValue && k >= 1
    ensures TagAfter(counter, k + TagPeriod) == TagAfter(counter, k)
  {
    TagAfterCycle(counter, k);
    TagAfterCycle(counter, k + TagPeriod);
    ModPeriod(counter + k - 1);
  }

  /** `cmd` as the queue stores it: a copy carrying `tag`. */
  function Stamped(cmd: Command, tag: int): (c: Command)
    ensures c.tag == tag && c.(tag := cmd.tag) == cmd
  {
    cmd.(tag := tag)
  }

  /** `CCommandQueue`: the commands in order, the tag counter and the queue's kind. */
  class CCommandQueue {
    var queue: seq<Command>
    var tagCounter: int
    var queueType: QueueType

    /** The counter stays a value `GetNextTag` can start from. */
    ghost predicate Valid()
      reads this
    {
      0 <= tagCounter < MaxTagValue
    }

    constructor ()
      ensures Valid()
      ensures queue == [] && tagCounter == 0 && queueType == CommandQueueType
    {
      queue := [];
      tagCounter := 0;
      queueType := CommandQueueType;
    }

    function GetType(): (t: QueueType)
      reads this
      ensures t == queueType
    {
      queueType
    }

    method SetQueueType(t: QueueType)
      modifies this`queueType
      ensures queueType == t
    {
      queueType := t;
    }

    function Size(): (n: nat)
      reads this
      ensures n == |queue|
    {
      |queue|
    }

    function Empty(): (b: bool)
      reads this
      ensures b <==> Size() == 0
      ensures b <==> queue == []
    {
      |queue| == 0
    }

    method GetNextTag() returns (tag: int)
      requires Valid()
      modifies this`tagCounter
      ensures Valid()
      ensures tag == tagCounter == NextTag(old(tagCounter))
      ensures 1 <= tag < MaxTagValue
    {
      tagCounter := tagCounter + 1;
      if tagCounter >= MaxTagValue {
        tagCounter := 1;
      }
      tag := tagCounter;
    }

    method PushBack(cmd: Command)
      requires Valid()
      modifies this`queue, this`tagCounter
      ensures Valid()
      ensures tagCounter == NextTag(old(tagCounter))
      ensures queue == old(queue) + [Stamped(cmd, tagCounter)]
    {
      queue := queue + [cmd];
      var tag := GetNextTag();
      queue := queue[|queue| - 1 := queue[|queue| - 1].(tag := tag)];
    }

    method PushFront(cmd: Command)
      requires Valid()
      modifies this`queue, this`tagCounter
      ensures Valid()
      ensures tagCounter == NextTag(old(tagCounter))
      ensures queue == [Stamped(cmd, tagCounter)] + old(queue)
    {
      queue := [cmd] + queue;
      var tag := GetNextTag();
      queue := queue[0 := queue[0].(tag := tag)];
    }

    /** `insert(pos, cmd)`: `pos` is an iterator into the queue, here an index from
        0 (the front) to `Size()` (the end). */
    method Insert(pos: nat, cmd: Command)
      requires Valid() && pos <= |queue|
      modifies this`queue, this`tagCounter
      ensures Valid()
      ensures tagCounter == NextTag(old(tagCounter))
      ensures queue == old(queue[..pos]) + [Stamped(cmd, tagCounter)] + old(queue[pos..])
    {
      var tmpCmd := cmd;
      var tag := GetNextTag();
      tmpCmd := tmpCmd.(tag := tag);
      queue := queue[..pos] + [tmpCmd] + queue[pos..];
    }

    method PopBack()
      requires |queue| > 0
      modifies this`queue
      ensures queue == old(queue[..|queue| - 1])
    {
      queue := queue[..|queue| - 1];
    }

    method PopFront()
      requires |queue| > 0
      modifies this`queue
      ensures queue == old(queue[1..])
    {
      queue := queue[1..];
    }

    /** `erase(pos)`: removes the command at a dereferenceable iterator. */
    method Erase(pos: nat)
      requires pos < |queue|
      modifies this`queue
      ensures queue == old(queue[..pos] + queue[pos + 1..])
    {
      queue := queue[..pos] + queue[pos + 1..];
    }

    /** `erase(first, last)`: removes the commands in `[first, last)`. */
    method EraseRange(first: nat, last: nat)
      requires first <= last <= |queue|
      modifies this`queue
      ensures queue == old(queue[..first] + queue[last..])
    {
      queue := queue[..first] + queue[last..];
    }

    method Clear()
      modifies this`queue
      ensures queue == []
    {
      queue := [];
    }
  }
}
