/** Option, and the adversary that every API client in this project is put up against. */
module Prelude {

  datatype Option<+T> = None | Some(value: T) {
    function GetOr(default: T): T {
      match this
      case Some(v) => v
      case None => default
    }
  }

  /** The fate of one API call.
      Landed: the call takes effect and the caller learns so.
      Rejected: no effect, the caller gets an error.
      ReplyLost: the call takes effect but the caller gets an error.
      Halted: the calling process dies just before the call. */
  datatype Fate = Landed | Rejected | ReplyLost | Halted

  /** What the world does next: another actor performs one of its own writes, or the next
      call of the controller meets a fate other than Landed. */
  datatype Event<A> = Other(action: A) | Meet(fate: Fate)

  /** The answer to a read. */
  datatype Reply<+T> = Found(value: T) | NotFound | Failed

  /** How a reconcile pass ends: nothing to wait for, come back later, or an error. */
  datatype Outcome = Finished | Requeue | Error

  /** There is always a number that is greater than finitely many. */
  lemma {:induction false} SomeAbove(numbers: set<nat>) returns (top: nat)
    ensures forall n :: n in numbers ==> n < top
  {
    if numbers == {} {
      top := 0;
    } else {
      var n :| n in numbers;
      var rest := SomeAbove(numbers - {n});
      top := if n < rest then rest else n + 1;
      assert forall k :: k in numbers ==> k == n || k in numbers - {n};
    }
  }

  lemma SomeNewName(names: set<string>) returns (another: string)
    ensures another !in names
  {
    var lengths := set n | n in names :: |n|;
    var top := SomeAbove(lengths);
    another := seq(top, i => 'm');
    assert another in names ==> |another| in lengths;
  }
}
