/** The circular descriptor iterator, with the pointer arithmetic that finds a field's data. */
module Iterator {
  import opened Options
  import opened Schema

  /** The entry that ends a descriptor array. Its zero type reads as a required static varint. */
  const TERMINATOR := Field(0, LVarint, Required, Static, 0, 0, 0, 0, None)

  function Entry(fields: seq<Field>, i: nat): Field {
    if i < |fields| then fields[i] else TERMINATOR
  }

  /** The number of bytes a field takes in the struct. */
  function Span(f: Field): nat {
    if f.atype.Static? && f.htype.Repeated? then f.dataSize * f.arraySize else f.dataSize
  }

  /** Where the data of field i lies in a struct at address dest. */
  function DataAddress(fields: seq<Field>, dest: int, i: nat): int
    requires i < |fields| || i == 0
  {
    if i == 0 then dest + Entry(fields, 0).dataOffset
    else if Joined(fields, i) then DataAddress(fields, dest, i - 1)
    else DataAddress(fields, dest, i - 1) + Span(fields[i - 1]) + fields[i].dataOffset
  }

  /** Where its has-flag, count or selector lies. */
  function SizeAddress(fields: seq<Field>, dest: int, i: nat): int
    requires i < |fields| || i == 0
  {
    if i > 0 && Joined(fields, i) then SizeAddress(fields, dest, i - 1)
    else DataAddress(fields, dest, i) + Entry(fields, i).sizeOffset
  }

  /** On the way round from start to pos, after at least one step, entry i has been passed. */
  predicate Passed(start: nat, pos: nat, i: nat) {
    if start < pos then start <= i < pos else start <= i || i < pos
  }

  /** How many steps are left until start comes round again. */
  function Ahead(start: nat, pos: nat, n: nat): int {
    if start < pos then n - pos + start else start - pos
  }

  class FieldIterator {
    const fields: seq<Field>
    const dest: int
    var pos: nat
    var slot: nat
    var required: nat
    var pData: int
    var pSize: int

    /** Everything the iterator holds is a function of its position. */
    ghost predicate Valid()
      reads this
    {
      && (pos < |fields| || (fields == [] && pos == 0))
      && slot == (if fields == [] then 0 else SlotOf(fields, pos))
      && required == RequiredBefore(fields, pos)
      && pData == DataAddress(fields, dest, pos)
      && pSize == SizeAddress(fields, dest, pos)
    }

    constructor (fields: seq<Field>, dest: int)
      ensures this.fields == fields && this.dest == dest
      ensures Valid() && pos == 0
    {
      this.fields := fields;
      this.dest := dest;
      pos, slot, required := 0, 0, 0;
      pData := dest + Entry(fields, 0).dataOffset;
      pSize := dest + Entry(fields, 0).dataOffset + Entry(fields, 0).sizeOffset;
    }

    /** One step; at the end it wraps back to the first field and returns false. */
    method Next() returns (more: bool)
      requires Valid()
      modifies this
      ensures Valid()
      ensures more <==> old(pos) + 1 < |fields|
      ensures pos == if more then old(pos) + 1 else 0
    {
      if pos == |fields| {
        return false;
      }
      var prev := fields[pos];
      pos := pos + 1;
      if pos == |fields| {
        pos, slot, required := 0, 0, 0;
        pData := dest + fields[0].dataOffset;
        pSize := pData + fields[0].sizeOffset;
        return false;
      }
      var f := fields[pos];
      if prev.htype.Oneof? && f.htype.Oneof? && f.dataOffset == PB_SIZE_MAX {
        return true;
      }
      var prevSize := prev.dataSize;
      if prev.atype.Static? && prev.htype.Repeated? {
        prevSize := prevSize * prev.arraySize;
      }
      if prev.htype.Required? {
        required := required + 1;
      }
      slot := slot + 1;
      pData := pData + prevSize + f.dataOffset;
      pSize := pData + f.sizeOffset;
      return true;
    }

    /** Going round until an entry with the tag is found, or back where it started. */
    method Find(tag: nat) returns (found: bool)
      requires Valid() && DistinctTags(fields)
      modifies this
      ensures Valid()
      ensures found <==> FindTag(fields, tag, 0).Some? || (fields == [] && tag == 0)
      ensures found && fields != [] ==> FindTag(fields, tag, 0) == Some(pos)
      ensures !found ==> pos == old(pos)
    {
      var start := pos;
      if Entry(fields, pos).tag == tag {
        if fields != [] { FindsItself(fields, pos); }
        return true;
      }
      var _ := Next();
      while pos != start
        invariant Valid() && (pos < |fields| || pos == start)
        invariant forall i :: 0 <= i < |fields| && Passed(start, pos, i) ==> fields[i].tag != tag
        decreases Ahead(start, pos, |fields|)
      {
        if fields[pos].tag == tag {
          FindsItself(fields, pos);
          return true;
        }
        var _ := Next();
      }
      assert forall i :: 0 <= i < |fields| ==> Passed(start, pos, i);
      return false;
    }

    /** The search for an extension field: no field of this model is one, so it comes back to its start. */
    method FindExtension() returns (found: bool)
      requires Valid()
      modifies this
      ensures Valid() && !found && pos == old(pos)
    {
      var start := pos;
      var _ := Next();
      while pos != start
        invariant Valid() && (pos < |fields| || pos == start)
        decreases Ahead(start, pos, |fields|)
      {
        var _ := Next();
      }
      return false;
    }
  }
}
