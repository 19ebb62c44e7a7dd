/**
 * clsx (src/lib/clsx.ts): build a class attribute from a mix of strings,
 * numbers, nested arrays and records of flags. `toClassName` walks one value
 * and pushes the classes it names onto a shared list; `clsx` walks all its
 * arguments that way and joins the list with single spaces.
 */
module Clsx {
  import opened Common

  /**
   * ClassValue. A number is an integer here; a record is the list of its
   * entries in the order `Object.entries` gives them.
   */
  datatype ClassValue =
    | Text(text: string)
    | Number(number: int)
    | False
    | Null
    | Undefined
    | Array(items: seq<ClassValue>)
    | Record(entries: seq<(string, bool)>)

  /** The values `!value` holds for. */
  predicate IsFalsy(v: ClassValue) {
    v.False? || v.Null? || v.Undefined? || v == Text("") || v == Number(0)
  }

  /** `String(n)` for an integer. */
  function IntToString(n: int): (r: string)
    ensures r != ""
  {
    if n < 0 then "-" + NatToString(-n) else NatToString(n)
  }

  /** The keys whose flag is set, in entry order. */
  function ActiveKeys(entries: seq<(string, bool)>): (r: seq<string>)
    ensures |r| <= |entries|
  {
    if entries == [] then []
    else (if entries[0].1 then [entries[0].0] else []) + ActiveKeys(entries[1..])
  }

  /** The classes one value names, in the order `toClassName` pushes them. */
  function Classes(v: ClassValue): seq<string>
    decreases v
  {
    if IsFalsy(v) then []
    else match v
      case Text(s) => [s]
      case Number(n) => [IntToString(n)]
      case Array(items) => ClassesOfAll(items)
      case Record(entries) => ActiveKeys(entries)
      case _ => []
  }

  /** The classes a list of values names, one value after the other. */
  function ClassesOfAll(vs: seq<ClassValue>): seq<string>
    decreases vs
  {
    if vs == [] then [] else Classes(vs[0]) + ClassesOfAll(vs[1..])
  }

  // ---------------------------------------------------------------------------
  // Properties of the class lists

  /** The classes of two lists of values, one after the other. */
  lemma {:induction false} ClassesOfAllAppend(a: seq<ClassValue>, b: seq<ClassValue>)
    ensures ClassesOfAll(a + b) == ClassesOfAll(a) + ClassesOfAll(b)
  {
    if a == [] {
      assert a + b == b;
    } else {
      calc {
        ClassesOfAll(a + b);
        { assert (a + b)[0] == a[0]; assert (a + b)[1..] == a[1..] + b; }
        Classes(a[0]) + ClassesOfAll(a[1..] + b);
        { ClassesOfAllAppend(a[1..], b); }
        Classes(a[0]) + (ClassesOfAll(a[1..]) + ClassesOfAll(b));
        ClassesOfAll(a) + ClassesOfAll(b);
      }
    }
  }

  /** The active keys of two runs of entries, one after the other. */
  lemma {:induction false} ActiveKeysAppend(a: seq<(string, bool)>, b: seq<(string, bool)>)
    ensures ActiveKeys(a + b) == ActiveKeys(a) + ActiveKeys(b)
  {
    if a == [] {
      assert a + b == b;
    } else {
      calc {
        ActiveKeys(a + b);
        { assert (a + b)[0] == a[0]; assert (a + b)[1..] == a[1..] + b; }
        (if a[0].1 then [a[0].0] else []) + ActiveKeys(a[1..] + b);
        { ActiveKeysAppend(a[1..], b); }
        (if a[0].1 then [a[0].0] else []) + (ActiveKeys(a[1..]) + ActiveKeys(b));
        ActiveKeys(a) + ActiveKeys(b);
      }
    }
  }

  /** A record names a key exactly when some entry sets it. */
  lemma {:induction false} ActiveKeysMembers(entries: seq<(string, bool)>, key: string)
    ensures key in ActiveKeys(entries) <==> exists i :: 0 <= i < |entries| && entries[i] == (key, true)
  {
    if entries != [] {
      ActiveKeysMembers(entries[1..], key);
      if key in ActiveKeys(entries[1..]) {
        var i :| 0 <= i < |entries[1..]| && entries[1..][i] == (key, true);
        assert entries[i + 1] == (key, true);
      }
      if exists i :: 0 <= i < |entries| && entries[i] == (key, true) {
        var i :| 0 <= i < |entries| && entries[i] == (key, true);
        if i > 0 {
          assert entries[1..][i - 1] == (key, true);
        }
      }
    }
  }

  /** A nested array contributes its classes in place: arrays flatten. */
  lemma NestedArrayFlattens(inner: seq<ClassValue>, before: seq<ClassValue>, after: seq<ClassValue>)
    ensures ClassesOfAll(before + [Array(inner)] + after) == ClassesOfAll(before + inner + after)
  {
    calc {
      ClassesOfAll(before + [Array(inner)] + after);
      { ClassesOfAllAppend(before + [Array(inner)], after); ClassesOfAllAppend(before, [Array(inner)]); }
      ClassesOfAll(before) + ClassesOfAll([Array(inner)]) + ClassesOfAll(after);
      { assert ClassesOfAll([Array(inner)]) == ClassesOfAll(inner) + ClassesOfAll([]); }
      ClassesOfAll(before) + ClassesOfAll(inner) + ClassesOfAll(after);
      { ClassesOfAllAppend(before, inner); ClassesOfAllAppend(before + inner, after); }
      ClassesOfAll(before + inner + after);
    }
  }

  /** Joining two non-empty lists is joining each and putting one space between. */
  lemma {:induction false} JoinAppend(a: seq<string>, b: seq<string>)
    requires a != [] && b != []
    ensures Join(a + b) == Join(a) + " " + Join(b)
  {
    if |a| == 1 {
      assert (a + b)[1..] == b;
    } else {
      assert (a + b)[1..] == a[1..] + b;
      JoinAppend(a[1..], b);
    }
  }

  /**
   * `clsx(a, b)`: the classes of `a`, then those of `b`, with one space
   * between when both name some.
   */
  lemma ClsxOfTwo(a: ClassValue, b: ClassValue)
    ensures Join(ClassesOfAll([a, b])) ==
      if Classes(a) == [] then Join(Classes(b))
      else if Classes(b) == [] then Join(Classes(a))
      else Join(Classes(a)) + " " + Join(Classes(b))
  {
    assert ClassesOfAll([a, b]) == Classes(a) + Classes(b) by {
      assert [a, b][1..] == [b];
      assert ClassesOfAll([b]) == Classes(b) + ClassesOfAll([]);
    }
    if Classes(a) == [] {
      assert Classes(a) + Classes(b) == Classes(b);
    } else if Classes(b) == [] {
      assert Classes(a) + Classes(b) == Classes(a);
    } else {
      JoinAppend(Classes(a), Classes(b));
    }
  }

  /** `clsx()` is the empty class attribute. */
  lemma ClsxOfNothing()
    ensures Join(ClassesOfAll([])) == ""
  {
  }

  // ---------------------------------------------------------------------------
  // The walk

  /** The `classes` list the walk pushes onto. */
  class ClassList {
    var items: seq<string>

    constructor()
      ensures items == []
    {
      items := [];
    }

    method Push(c: string)
      modifies this
      ensures items == old(items) + [c]
    {
      items := items + [c];
    }
  }

  /** toClassName: push the classes `value` names onto `classes`, in order. */
  method ToClassName(value: ClassValue, classes: ClassList)
    modifies classes
    ensures classes.items == old(classes.items) + Classes(value)
    decreases value
  {
    if IsFalsy(value) {
      return;
    }
    match value {
      case Text(s) =>
        classes.Push(s);
      case Number(n) =>
        classes.Push(IntToString(n));
      case Array(items) =>
        var i := 0;
        while i < |items|
          invariant 0 <= i <= |items|
          invariant classes.items == old(classes.items) + ClassesOfAll(items[..i])
        {
          ToClassName(items[i], classes);
          ClassesOfAllAppend(items[..i], [items[i]]);
          assert items[..i + 1] == items[..i] + [items[i]];
          assert ClassesOfAll([items[i]]) == Classes(items[i]) + ClassesOfAll([]);
          i := i + 1;
        }
        assert items[..|items|] == items;
      case Record(entries) =>
        var i := 0;
        while i < |entries|
          invariant 0 <= i <= |entries|
          invariant classes.items == old(classes.items) + ActiveKeys(entries[..i])
        {
          var (key, isActive) := entries[i];
          if isActive {
            classes.Push(key);
          }
          ActiveKeysAppend(entries[..i], [entries[i]]);
          assert entries[..i + 1] == entries[..i] + [entries[i]];
          i := i + 1;
        }
        assert entries[..|entries|] == entries;
      case _ =>
    }
  }

  /** clsx: the classes of every argument, in order, joined by single spaces. */
  method Clsx(values: seq<ClassValue>) returns (r: string)
    ensures r == Join(ClassesOfAll(values))
  {
    var classes := new ClassList();
    var i := 0;
    while i < |values|
      invariant 0 <= i <= |values|
      invariant classes.items == ClassesOfAll(values[..i])
    {
      ToClassName(values[i], classes);
      ClassesOfAllAppend(values[..i], [values[i]]);
      assert values[..i + 1] == values[..i] + [values[i]];
      assert ClassesOfAll([values[i]]) == Classes(values[i]) + ClassesOfAll([]);
      i := i + 1;
    }
    assert values[..|values|] == values;
    r := Join(classes.items);
  }
}
