/** Slices as Go has them: a window on a backing array, whose spare capacity `append` fills in place. */
module GoSlices {

  /** The first `len` cells of the backing array are visible, the others are spare. */
  datatype Slice = Slice(backing: array<string>, len: nat) {
    predicate Valid() {
      len <= backing.Length
    }

    function Visible(): seq<string>
      requires Valid()
      reads backing
    {
      backing[..len]
    }
  }

  /** Appends in place while there is spare capacity, otherwise to a copy with `spare` cells more. */
  method Append(s: Slice, x: string, spare: nat) returns (t: Slice)
    requires s.Valid()
    modifies s.backing
    ensures t.Valid() && t.len == s.len + 1 && t.Visible() == old(s.Visible()) + [x]
    ensures s.len < s.backing.Length ==> t.backing == s.backing && s.backing[..] == old(s.backing[..])[s.len := x]
    ensures s.len == s.backing.Length ==> fresh(t.backing) && s.backing[..] == old(s.backing[..])
  {
    if s.len < s.backing.Length {
      s.backing[s.len] := x;
      return Slice(s.backing, s.len + 1);
    }
    var bigger := new string[s.len + 1 + spare](_ => "");
    for i := 0 to s.len
      invariant bigger[..i] == s.backing[..i] && s.backing[..] == old(s.backing[..])
    {
      bigger[i] := s.backing[i];
    }
    bigger[s.len] := x;
    t := Slice(bigger, s.len + 1);
  }

  /** The backing array of `defaults` once `additional` was appended: filled as far as it has room. */
  function Filled(cells: seq<string>, len: nat, additional: seq<string>): (r: seq<string>)
    requires len <= |cells|
    ensures |r| == |cells| && r[..len] == cells[..len]
  {
    if |additional| <= |cells| - len then cells[..len] + additional + cells[len + |additional|..]
    else cells[..len] + additional[..|cells| - len]
  }

  lemma FilledNext(cells: seq<string>, len: nat, additional: seq<string>, i: nat)
    requires len <= |cells| && i < |additional|
    ensures var before, after := Filled(cells, len, additional[..i]), Filled(cells, len, additional[..i + 1]);
      after == if len + i < |cells| then before[len + i := additional[i]] else before
  {
    assert additional[..i + 1] == additional[..i] + [additional[i]];
    if len + i >= |cells| {
      assert additional[..i + 1][..|cells| - len] == additional[..i][..|cells| - len];
    }
  }

  /** Whatever the spare capacity of the default list, what is advertised is the default list followed by the
      additional one, and the visible default list is as before. The result shares the array of the default
      list iff everything fitted, and the spare cells filled on the way stay filled. */
  method Advertise(defaults: Slice, additional: seq<string>, spare: nat) returns (capabilities: Slice)
    requires defaults.Valid()
    modifies defaults.backing
    ensures capabilities.Valid() && capabilities.Visible() == old(defaults.Visible()) + additional
    ensures defaults.Visible() == old(defaults.Visible())
    ensures defaults.backing[..] == Filled(old(defaults.backing[..]), defaults.len, additional)
    ensures if defaults.len + |additional| <= defaults.backing.Length then capabilities.backing == defaults.backing
            else fresh(capabilities.backing)
  {
    capabilities := defaults;
    for i := 0 to |additional|
      invariant capabilities.Valid() && capabilities.len == defaults.len + i
      invariant capabilities.Visible() == old(defaults.Visible()) + additional[..i]
      invariant defaults.backing[..] == Filled(old(defaults.backing[..]), defaults.len, additional[..i])
      invariant if defaults.len + i <= defaults.backing.Length then capabilities.backing == defaults.backing
                else fresh(capabilities.backing)
    {
      assert additional[..i + 1] == additional[..i] + [additional[i]];
      FilledNext(old(defaults.backing[..]), defaults.len, additional, i);
      capabilities := Append(capabilities, additional[i], spare);
    }
    assert additional[..|additional|] == additional;
    assert defaults.Visible() == defaults.backing[..][..defaults.len];
  }
}
