/**
 * The `is` package: a box holding the last error it was given, and the two
 * tests that store an error in the box while asking whether it is nil.
 */
module IsError {
  import Wrappers

  /** A box for an error; nil is None. */
  class Box<E> {
    var err: Wrappers.Option<E>

    /** NewBox: a box holding no error. */
    constructor()
      ensures err.None?
    {
      err := Wrappers.None;
    }

    /** Err(): the error the box holds. */
    function Err(): (e: Wrappers.Option<E>)
      reads this
      ensures e == err
    {
      err
    }
  }

  /** Nil: stores err in the box and tells whether it is nil. */
  method Nil<E>(box: Box<E>, err: Wrappers.Option<E>) returns (isNil: bool)
    modifies box
    ensures box.err == err && isNil == err.None?
  {
    box.err := err;
    isNil := err.None?;
  }

  /** Err: stores err in the box and tells whether it is not nil. */
  method Err<E>(box: Box<E>, err: Wrappers.Option<E>) returns (isErr: bool)
    modifies box
    ensures box.err == err && isErr == err.Some?
  {
    box.err := err;
    isErr := err.Some?;
  }

  /**
   * For the same error Nil and Err answer oppositely, and either way the box
   * gives that error back.
   */
  method NilAndErrDisagree<E>(box: Box<E>, err: Wrappers.Option<E>) returns (isNil: bool, isErr: bool)
    modifies box
    ensures isNil == !isErr
    ensures box.Err() == err
  {
    isNil := Nil(box, err);
    isErr := Err(box, err);
  }

  /** A new box holds no error. */
  method NewBoxIsEmpty<E>() returns (box: Box<E>)
    ensures fresh(box) && box.Err().None?
  {
    box := new Box<E>();
  }
}
