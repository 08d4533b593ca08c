/**
 * `GetSet`: a cell read and replaced atomically under a mutex.  One thread is
 * modelled, so the mutex is not.  Ruby values are `Value`s, `nil` among them;
 * a block is a function from the old value to the new one.
 */
module ConcurrentGetSet {
  import opened Wrappers

  datatype Value = Nil | Bool(b: bool) | Obj(id: int)

  /** The value after `get_set(setVal, &blk)`, which is also what it returns. */
  function Next(current: Value, setVal: Value, blk: Option<Value -> Value>): Value {
    if blk.Some? then blk.value(current)
    else if setVal != Nil then setVal
    else current
  }

  /** Without a block and with a nil `set_val` the call is a pure read. */
  lemma ReadLeavesValue(current: Value)
    ensures Next(current, Nil, None) == current
  {
  }

  /** Without a block, any non-nil `set_val`, `false` included, replaces the value. */
  lemma NonNilReplaces(current: Value, setVal: Value)
    requires setVal != Nil
    ensures Next(current, setVal, None) == setVal
    ensures Next(current, Bool(false), None) == Bool(false)
  {
  }

  /** With a block, the value becomes the block's result, whatever `set_val` is. */
  lemma BlockDecides(current: Value, setVal: Value, f: Value -> Value)
    ensures Next(current, setVal, Some(f)) == f(current)
  {
  }

  /** A non-nil value can become nil only through the block form. */
  lemma NilOnlyThroughBlock(current: Value, setVal: Value, blk: Option<Value -> Value>)
    requires current != Nil && Next(current, setVal, blk) == Nil
    ensures blk.Some? && blk.value(current) == Nil
  {
  }

  class GetSet {
    var val: Value

    /** `GetSet.new(initial_state)`. */
    constructor (initialState: Value)
      ensures val == initialState
    {
      val := initialState;
    }

    /** `GetSet.new`: the initial state defaults to `false`. */
    constructor Default()
      ensures val == Bool(false)
    {
      val := Bool(false);
    }

    /** `get_set(set_val, &blk)`: the new value is stored and returned. */
    method GetAndSet(setVal: Value, blk: Option<Value -> Value>) returns (r: Value)
      modifies this
      ensures val == Next(old(val), setVal, blk)
      ensures r == val
    {
      if blk.Some? {
        val := blk.value(val);
      } else if setVal != Nil {
        val := setVal;
      }
      r := val;
    }
  }
}
