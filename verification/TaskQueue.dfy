/** The bounded queue of tasks, used by one thread at a time. */
module TaskQueues {
  import opened Common
  import opened Rings

  /** What an unused slot of the buffer holds. */
  const NULL: nat := 0

  class TaskQueue {
    var buffer: array<nat>
    var available: nat
    var getPosition: nat
    var putPosition: nat

    ghost function View(): Ring<nat>
      reads this, buffer
    {
      Ring(buffer[..], available, getPosition, putPosition)
    }

    ghost predicate Valid()
      reads this, buffer
    {
      RingOk(View())
    }

    constructor (capacity: nat)
      ensures fresh(buffer) && buffer.Length == capacity
      ensures Valid() && Contents(View()) == []
    {
      buffer := new nat[capacity](_ => NULL);
      available, getPosition, putPosition := 0, 0, 0;
    }

    /** Null when the queue is empty, the oldest task otherwise. */
    method Pop() returns (task: Option<nat>)
      requires Valid()
      modifies this`available, this`getPosition, buffer
      ensures Valid()
      ensures task == if old(Contents(View())) == [] then None else Some(old(Contents(View()))[0])
      ensures Contents(View()) == if task.None? then old(Contents(View())) else old(Contents(View()))[1..]
      ensures task.None? ==> View() == old(View())
    {
      task := None;
      if 0 < available {
        ghost var before := View();
        GotRemoves(before, NULL);
        available := available - 1;
        var position := getPosition;
        getPosition := getPosition + 1;
        if buffer.Length <= getPosition {
          getPosition := 0;
        }
        task := Some(buffer[position]);
        buffer[position] := NULL;
        assert View() == Got(before, NULL);
      }
    }

    /** False when the queue holds `limit` tasks; otherwise the task is appended. */
    method Push(task: nat) returns (result: bool)
      requires Valid()
      modifies this`available, this`putPosition, buffer
      ensures Valid()
      ensures result == (|old(Contents(View()))| < buffer.Length)
      ensures Contents(View()) == if result then old(Contents(View())) + [task] else old(Contents(View()))
      ensures !result ==> View() == old(View())
    {
      result := false;
      if buffer.Length > available {
        ghost var before := View();
        PutAppends(before, task);
        var position := putPosition;
        putPosition := putPosition + 1;
        if buffer.Length <= putPosition {
          putPosition := 0;
        }
        buffer[position] := task;
        available := available + 1;
        result := true;
        assert View() == Put(before, task);
      }
    }
  }
}
