/**
 * The growable item buffers of src/ast.c: ASTStmtList and ASTPrintArgList,
 * with ast_*_list_new, ast_*_list_append and ensure_*_capacity.
 *
 * Both C structs are the triple (items, count, capacity) and differ only
 * in the element type and in the capacity of the first allocation, so one
 * generic class models both. A NULL `items` pointer (capacity 0) is a
 * zero-length array.
 */
module AstList {
  import opened Ast

  /** Capacity of the first allocation of a statement list. */
  const StmtFirstCapacity: nat := 8
  /** Capacity of the first allocation of a print-argument list. */
  const PrintArgFirstCapacity: nat := 4

  /**
   * The capacity that ensure_*_capacity leaves behind: the first growth
   * allocates `first` slots, a full buffer doubles, otherwise nothing
   * changes. Afterwards there is room for one more item.
   */
  function GrownCapacity(capacity: nat, count: nat, first: nat): (r: nat)
    requires count <= capacity && first > 0
    ensures count < r && capacity <= r
    ensures r != capacity <==> capacity == 0 || count == capacity
  {
    if capacity == 0 then first
    else if count >= capacity then capacity * 2
    else capacity
  }

  /** The capacity of a fresh list after `n` appends. */
  function CapacityAfter(n: nat, first: nat): nat
    requires first > 0
  {
    if n == 0 then 0 else GrownCapacity(CapacityAfter(n - 1, first), n - 1, first)
  }

  /**
   * After n appends the buffer holds n items, it is exactly the first
   * capacity while n <= first, and it never exceeds twice the item count
   * once it has grown beyond the first allocation.
   */
  lemma {:induction false} CapacityAfterBounds(n: nat, first: nat)
    requires first > 0
    ensures n <= CapacityAfter(n, first)
    ensures 0 < n <= first ==> CapacityAfter(n, first) == first
    ensures n > first ==> CapacityAfter(n, first) < 2 * n
  {
    if n > 0 {
      CapacityAfterBounds(n - 1, first);
    }
  }

  class ItemList<T(0)> {
    var items: array<T>
    var count: nat
    var capacity: nat
    const firstCapacity: nat

    ghost predicate Valid()
      reads this
    {
      items.Length == capacity && count <= capacity && firstCapacity > 0
    }

    /** The list's elements: the first `count` items, in order. */
    ghost function Elements(): seq<T>
      reads this, items
      requires Valid()
    {
      items[..count]
    }

    /** ast_stmt_list_new / ast_print_arg_list_new: no items, count 0, capacity 0. */
    constructor (firstCapacity: nat)
      requires firstCapacity > 0
      ensures Valid() && fresh(items)
      ensures this.firstCapacity == firstCapacity
      ensures count == 0 && capacity == 0 && Elements() == []
    {
      items := new T[0];
      count := 0;
      capacity := 0;
      this.firstCapacity := firstCapacity;
    }

    /**
     * ensure_*_capacity: allocate on first use, double when full (realloc
     * copies the items over), otherwise leave the buffer alone.
     */
    method EnsureCapacity()
      requires Valid()
      modifies this`items, this`capacity
      ensures Valid() && count < capacity
      ensures capacity == GrownCapacity(old(capacity), count, firstCapacity)
      ensures items == old(items) || fresh(items)
      ensures Elements() == old(Elements())
    {
      if capacity == 0 {
        capacity := firstCapacity;
        items := new T[capacity];
      } else if count >= capacity {
        var grown := new T[capacity * 2];
        var i := 0;
        while i < count
          invariant 0 <= i <= count
          invariant grown[..i] == items[..i]
          modifies grown
        {
          grown[i] := items[i];
          i := i + 1;
        }
        items := grown;
        capacity := capacity * 2;
      }
    }

    /**
     * ast_*_list_append: the new item goes to index `count`, the earlier
     * items stay where they were, and count grows by one.
     */
    method Append(x: T)
      requires Valid()
      modifies this, items
      ensures Valid()
      ensures count == old(count) + 1 && items[old(count)] == x
      ensures Elements() == old(Elements()) + [x]
      ensures capacity == GrownCapacity(old(capacity), old(count), firstCapacity)
      ensures items == old(items) || fresh(items)
    {
      EnsureCapacity();
      items[count] := x;
      count := count + 1;
    }
  }

  /** ast_stmt_list_new */
  method NewStmtList() returns (list: ItemList<Stmt>)
    ensures fresh(list) && fresh(list.items) && list.Valid()
    ensures list.firstCapacity == StmtFirstCapacity
    ensures list.count == 0 && list.capacity == 0 && list.Elements() == []
  {
    list := new ItemList<Stmt>(StmtFirstCapacity);
  }

  /** ast_print_arg_list_new */
  method NewPrintArgList() returns (list: ItemList<PrintArg>)
    ensures fresh(list) && fresh(list.items) && list.Valid()
    ensures list.firstCapacity == PrintArgFirstCapacity
    ensures list.count == 0 && list.capacity == 0 && list.Elements() == []
  {
    list := new ItemList<PrintArg>(PrintArgFirstCapacity);
  }

  /** Appending n items to a fresh list yields exactly CapacityAfter(n). */
  method AppendAll<T(0)>(list: ItemList<T>, xs: seq<T>)
    requires list.Valid() && list.count == 0 && list.capacity == 0
    modifies list, list.items
    ensures list.Valid() && list.Elements() == xs
    ensures list.capacity == CapacityAfter(|xs|, list.firstCapacity)
  {
    var i := 0;
    while i < |xs|
      invariant 0 <= i <= |xs|
      invariant list.Valid() && list.count == i && list.Elements() == xs[..i]
      invariant list.capacity == CapacityAfter(i, list.firstCapacity)
      invariant fresh(list.items) || list.items == old(list.items)
      modifies list, list.items
    {
      list.Append(xs[i]);
      i := i + 1;
    }
  }
}
