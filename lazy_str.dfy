/** `LazyStr` of aissembly_core/parser.py: a string computed by a thunk the first
    time it is needed and cached afterwards. `+` with a `LazyStr` on either
    side builds a new `LazyStr` whose thunk calls `str()` on both operands,
    and `str()` of a `LazyStr` is its `force()`: forcing a sum forces and
    caches the `LazyStr` operands in it. */
module LazyText {
  import opened Basics

  /** An operand of `+`: a plain string, or another `LazyStr`. */
  datatype Operand = Str(s: string) | Lazy(l: LazyStr)

  /** `_thunk`: a thunk given to the constructor, or the
      `lambda: str(left) + str(right)` that `+` builds. */
  datatype Thunk = Plain(f: () -> string) | Concat(left: Operand, right: Operand)

  class LazyStr {
    const thunk: Thunk
    /** `_value`: `None` until the first `force`. */
    var value: Option<string>
    /** `_done`. */
    var done: bool
    /** How many times this object's thunk has run. */
    ghost var runs: nat
    /** The `LazyStr` objects the thunk reaches, not counting this one. */
    ghost const Below: set<LazyStr>
    ghost const depth: nat

    ghost function Repr(): set<LazyStr> {
      {this} + Below
    }

    /** The objects and the nesting of a sum are fixed when it is built. */
    ghost predicate Shaped()
      decreases depth, 1
    {
      this !in Below &&
      match thunk
      case Plain(_) => Below == {}
      case Concat(a, b) =>
        OperandShaped(a) && OperandShaped(b) && Below == OperandRepr(a) + OperandRepr(b)
    }

    ghost predicate OperandShaped(p: Operand)
      decreases depth, 0
    {
      p.Lazy? ==> p.l.depth < depth && this !in p.l.Repr() && p.l.Shaped()
    }

    /** The text the thunk gives: `str()` of a `LazyStr` operand is its text. */
    ghost function Text(): string
      requires Shaped()
      decreases depth, 1
    {
      match thunk
      case Plain(f) => f()
      case Concat(a, b) => OperandText(a) + OperandText(b)
    }

    ghost function OperandText(p: Operand): string
      requires OperandShaped(p)
      decreases depth, 0
    {
      if p.Lazy? then p.l.Text() else p.s
    }

    /** The cache agrees with the thunk, and the thunk has run at most once. */
    ghost predicate Ok()
      reads this
    {
      Shaped() &&
      runs <= 1 &&
      (done <==> runs == 1) &&
      (done ==> value == Some(Text())) &&
      (!done ==> value == None)
    }

    ghost predicate Valid()
      reads Repr()
    {
      Ok() && forall o :: o in Below ==> o.Ok()
    }

    constructor (thunk: () -> string)
      ensures Valid() && !done && runs == 0
      ensures this.thunk == Plain(thunk) && Below == {}
      ensures Text() == thunk()
    {
      this.thunk := Plain(thunk);
      Below := {};
      depth := 0;
      value := None;
      done := false;
      runs := 0;
    }

    /** The `LazyStr` that `+` returns: nothing is computed yet. */
    constructor Sum(a: Operand, b: Operand)
      requires OperandValid(a) && OperandValid(b)
      ensures Valid() && !done && runs == 0
      ensures thunk == Concat(a, b) && Below == OperandRepr(a) + OperandRepr(b)
      ensures Text() == (if a.Lazy? then a.l.Text() else a.s) + (if b.Lazy? then b.l.Text() else b.s)
    {
      thunk := Concat(a, b);
      Below := OperandRepr(a) + OperandRepr(b);
      depth := 1 + OperandDepth(a) + OperandDepth(b);
      value := None;
      done := false;
      runs := 0;
      new;
      assert OperandShaped(a) && OperandShaped(b);
    }

    /** `force`: the thunk runs on the first call only, and every call
        returns its text. Running a sum's thunk forces its `LazyStr`
        operands, which then keep their values; an object already forced is
        left as it is. */
    method Force() returns (s: string)
      requires Valid()
      modifies Repr()
      decreases depth
      ensures Valid() && done && s == Text()
      ensures old(done) ==> unchanged(Repr())
      ensures forall o :: o in Repr() && old(o.done) ==> o.done && o.value == old(o.value) && o.runs == old(o.runs)
      ensures !old(done) && thunk.Concat? ==> Forced(thunk.left) && Forced(thunk.right)
    {
      if !done {
        var v: string;
        match thunk {
          case Plain(f) =>
            v := f();
          case Concat(a, b) =>
            var x := ForceOperand(a);
            var y := ForceOperand(b);
            v := x + y;
        }
        value := Some(v);
        done := true;
        runs := runs + 1;
      }
      s := value.value;
    }

    /** `str(p)` inside a sum's thunk. */
    method ForceOperand(p: Operand) returns (s: string)
      requires Shaped() && thunk.Concat? && (p == thunk.left || p == thunk.right)
      requires forall o :: o in Below ==> o.Ok()
      modifies Below
      decreases depth, 0
      ensures forall o :: o in Below ==> o.Ok()
      ensures s == OperandText(p)
      ensures Forced(p)
      ensures forall o :: o in Below && old(o.done) ==> o.done && o.value == old(o.value) && o.runs == old(o.runs)
    {
      if p.Lazy? {
        assert p.l.Repr() <= Below;
        s := p.l.Force();
      } else {
        s := p.s;
      }
    }

    /** `self + other` with a plain string. */
    method Add(other: string) returns (r: LazyStr)
      requires Valid()
      ensures fresh(r) && r.Valid() && !r.done && r.Below == Repr()
      ensures r.thunk == Concat(Lazy(this), Str(other))
      ensures r.Text() == Text() + other
    {
      r := new LazyStr.Sum(Lazy(this), Str(other));
    }

    /** `other + self` with a plain string. */
    method RAdd(other: string) returns (r: LazyStr)
      requires Valid()
      ensures fresh(r) && r.Valid() && !r.done && r.Below == Repr()
      ensures r.thunk == Concat(Str(other), Lazy(this))
      ensures r.Text() == other + Text()
    {
      r := new LazyStr.Sum(Str(other), Lazy(this));
    }

    /** `self + other` with another `LazyStr`. */
    method AddLazy(other: LazyStr) returns (r: LazyStr)
      requires Valid() && other.Valid()
      ensures fresh(r) && r.Valid() && !r.done && r.Below == Repr() + other.Repr()
      ensures r.thunk == Concat(Lazy(this), Lazy(other))
      ensures r.Text() == Text() + other.Text()
    {
      r := new LazyStr.Sum(Lazy(this), Lazy(other));
    }
  }

  ghost function OperandRepr(p: Operand): set<LazyStr> {
    if p.Lazy? then p.l.Repr() else {}
  }

  ghost function OperandDepth(p: Operand): nat {
    if p.Lazy? then p.l.depth else 0
  }

  ghost predicate OperandValid(p: Operand)
    reads OperandRepr(p)
  {
    p.Lazy? ==> p.l.Valid()
  }

  /** A `LazyStr` operand has been forced. */
  ghost predicate Forced(p: Operand)
    reads if p.Lazy? then {p.l} else {}
  {
    p.Lazy? ==> p.l.done
  }

  /** Forcing twice runs the thunk once and gives the same string both times. */
  method ForceTwice(l: LazyStr) returns (a: string, b: string)
    requires l.Valid() && !l.done
    modifies l.Repr()
    ensures a == b == l.Text()
    ensures l.runs == 1
  {
    a := l.Force();
    b := l.Force();
  }

  /** Forcing `l + other` forces and caches `l` on the way: forcing `l`
      afterwards gives its text without running its thunk again. */
  method SumForcesOperand(l: LazyStr, other: string) returns (sum: string, alone: string)
    requires l.Valid() && !l.done
    modifies l.Repr()
    ensures sum == l.Text() + other && alone == l.Text()
    ensures l.done && l.runs == 1
  {
    var r := l.Add(other);
    sum := r.Force();
    alone := l.Force();
  }
}
