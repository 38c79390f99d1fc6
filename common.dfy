/** Values shared by every module: Java's nullable references become Option,
  * and the exceptions the plugin throws become the error side of Result. */
module Common {

  datatype Option<+T> = None | Some(value: T) {
    function GetOr(default: T): T {
      match this
      case None => default
      case Some(v) => v
    }
  }

  /** The kinds of Java exception the plugin raises or lets through. */
  datatype ErrKind =
    | IllegalState
    | IllegalArgument
    | Runtime
    | IOError
    | Interrupted
    | NullPointer
    | IndexOutOfBounds
    | XmlParse
    | ClassCast

  /** A thrown exception: its class, its message and the exception it wraps. */
  datatype Exc = Exc(kind: ErrKind, message: string, cause: Option<Exc>)

  function Throw(kind: ErrKind, message: string): Exc {
    Exc(kind, message, None)
  }

  /** `new RuntimeException(message, cause)`. */
  function Wrap(message: string, cause: Exc): Exc {
    Exc(Runtime, message, Some(cause))
  }

  datatype Result<+T> = Ok(value: T) | Err(error: Exc) {
    predicate IsFailure() {
      Err?
    }

    function PropagateFailure<U>(): Result<U>
      requires Err?
    {
      Err(error)
    }

    function Extract(): T
      requires Ok?
    {
      value
    }
  }

  /** A sequence of results as one: all the values in order, or the first failure. */
  function AllOk<T>(rs: seq<Result<T>>): (r: Result<seq<T>>)
    ensures r.Ok? <==> forall i :: 0 <= i < |rs| ==> rs[i].Ok?
    ensures r.Ok? ==> |r.value| == |rs| && forall i :: 0 <= i < |rs| ==> rs[i] == Ok(r.value[i])
    decreases |rs|
  {
    if |rs| == 0 then Ok([])
    else
      var init := AllOk(rs[..|rs| - 1]);
      assert forall i :: 0 <= i < |rs| - 1 ==> rs[..|rs| - 1][i] == rs[i];
      if init.Err? then Err(init.error)
      else if rs[|rs| - 1].Err? then Err(rs[|rs| - 1].error)
      else Ok(init.value + [rs[|rs| - 1].value])
  }

  /** The failure reported is the first one. */
  lemma {:induction false} AllOkFirstError<T>(rs: seq<Result<T>>, i: nat)
    requires i < |rs| && rs[i].Err? && forall j :: 0 <= j < i ==> rs[j].Ok?
    ensures AllOk(rs) == Err(rs[i].error)
    decreases |rs|
  {
    var init := rs[..|rs| - 1];
    assert forall j :: 0 <= j < |rs| - 1 ==> init[j] == rs[j];
    if i < |rs| - 1 {
      AllOkFirstError(init, i);
    }
  }
}
