/** The exported DeepCopy methods: a pointer in, a pointer out, nil for nil, for any input. */
module DeepCopyObjects {
  import opened GoHeap
  import opened DeepCopy
  import opened DeepCopyLaws

  /** The copy is a new struct over new maps and arrays, apart from each other and, being
      new, from everything that existed; it shows the one value v that the original shows. */
  method DeepCopyCustom(inp: Cell?<HCustom>)
    returns (out: Cell?<HCustom>, ghost v: Custom, ghost from: set<object>, ghost fp: set<object>)
    ensures inp == null <==> out == null
    ensures inp != null ==>
              && inp.value == old(inp.value) && CustomShows(inp.value, v, from)
              && fresh(out) && fresh(fp) && out !in fp && CustomApart(out.value, v, fp)
  {
    hide CustomShows, CustomApart;
    out, from, fp := null, {}, {};
    v := *;
    if inp != null {
      v, from := CustomReads(inp.value);
      var copy, refs := CopyCustom(inp.value, v, from);
      out := new Cell(copy);
      fp := refs;
    }
  }

  method DeepCopyList(inp: Cell?<HCustomList>)
    returns (out: Cell?<HCustomList>, ghost v: CustomList, ghost from: set<object>, ghost fp: set<object>,
             ghost pieces: seq<set<object>>)
    ensures inp == null <==> out == null
    ensures inp != null ==>
              && inp.value == old(inp.value) && ListShows(inp.value, v, from)
              && fresh(out) && fresh(fp) && out !in fp && ListApart(out.value, v, fp, pieces)
  {
    hide ListShows, ListApart;
    out, from, fp, pieces := null, {}, {}, [];
    v := *;
    if inp != null {
      v, from := ListReads(inp.value);
      var copy, refs, parts := CopyList(inp.value, v, from);
      out := new Cell(copy);
      fp, pieces := refs, parts;
    }
  }
}
