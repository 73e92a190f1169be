/** The generated deep copies of the MountPoint types, on the heap: structs that hold slices, and lists of
    structs. A nil slice is a null array; library metadata is a value, copied by assignment. */
module DeepCopy {
  import opened Api

  datatype Meta = Meta(namespace: string, name: string, labels: map<string, string>, finalizers: seq<string>)
  datatype Condition = Condition(kind: string, status: string, reason: string, message: string)

  /** What a struct holds, with slices as sequences and nil slices as `None`. */
  datatype SpecValue = SpecValue(target: string, username: string, password: string, timeout: int,
                                 additional: Option<seq<string>>)
  datatype StatusValue = StatusValue(conditions: Option<seq<Condition>>, status: string, rpcReply: string,
                                     capabilities: Option<seq<string>>, subscriptionID: string)
  datatype MountPointValue = MountPointValue(meta: Meta, spec: SpecValue, status: StatusValue)

  function Cells<T>(a: array?<T>): set<object> {
    if a == null then {} else {a}
  }

  /** `make` and `copy` of a slice that is not nil. */
  method CopySlice<T>(a: array<T>) returns (b: array<T>)
    ensures fresh(b) && b[..] == a[..]
  {
    b := new T[a.Length](i requires 0 <= i < a.Length reads a => a[i]);
  }

  method FromSeq<T>(s: seq<T>) returns (a: array<T>)
    ensures fresh(a) && a[..] == s
  {
    a := new T[|s|](i requires 0 <= i < |s| => s[i]);
  }

  class MountPointSpec {
    var target: string
    var username: string
    var password: string
    var timeout: int
    var additionalCapabilities: array?<string>

    constructor ()
      ensures Storage() == {}
    {
      target, username, password, timeout, additionalCapabilities := "", "", "", 0, null;
    }

    ghost function Storage(): set<object>
      reads this
    {
      Cells(additionalCapabilities)
    }

    function Value(): SpecValue
      reads this, additionalCapabilities
    {
      SpecValue(target, username, password, timeout,
                if additionalCapabilities == null then None else Some(additionalCapabilities[..]))
    }

    method DeepCopyInto(out: MountPointSpec)
      requires out != this
      modifies out
      ensures out.Value() == Value() == old(Value())
      ensures fresh(out.Storage())
    {
      out.target, out.username, out.password, out.timeout := target, username, password, timeout;
      out.additionalCapabilities := additionalCapabilities;
      if additionalCapabilities != null {
        out.additionalCapabilities := CopySlice(additionalCapabilities);
      }
    }
  }

  class RPCStatus {
    var conditions: array?<Condition>
    var status: string
    var rpcReply: string
    var capabilities: array?<string>
    var subscriptionID: string

    constructor ()
      ensures Storage() == {}
    {
      conditions, status, rpcReply, capabilities, subscriptionID := null, "", "", null, "";
    }

    ghost function Storage(): set<object>
      reads this
    {
      Cells(conditions) + Cells(capabilities)
    }

    function Value(): StatusValue
      reads this, conditions, capabilities
    {
      StatusValue(if conditions == null then None else Some(conditions[..]), status, rpcReply,
                  if capabilities == null then None else Some(capabilities[..]), subscriptionID)
    }

    method DeepCopyInto(out: RPCStatus)
      requires out != this
      modifies out
      ensures out.Value() == Value() == old(Value())
      ensures fresh(out.Storage())
    {
      out.status, out.rpcReply, out.subscriptionID := status, rpcReply, subscriptionID;
      out.conditions, out.capabilities := conditions, capabilities;
      if conditions != null {
        var copies := new Condition[conditions.Length](_ => Condition("", "", "", ""));
        for i := 0 to conditions.Length
          modifies copies
          invariant copies[..i] == conditions[..i]
        {
          copies[i] := conditions[i];
        }
        assert copies[..] == conditions[..];
        out.conditions := copies;
      }
      if capabilities != null {
        out.capabilities := CopySlice(capabilities);
      }
    }
  }

  /** The spec and the status are embedded: they come and go with the struct. */
  class MountPoint {
    var meta: Meta
    const spec: MountPointSpec
    const status: RPCStatus

    constructor ()
      ensures fresh(Reach())
    {
      meta := Meta("", "", map[], []);
      spec := new MountPointSpec();
      status := new RPCStatus();
    }

    ghost function Reach(): set<object>
      reads this, spec, status
    {
      {this, spec, status} + spec.Storage() + status.Storage()
    }

    function Value(): MountPointValue
      reads this, spec, status, spec.additionalCapabilities, status.conditions, status.capabilities
    {
      MountPointValue(meta, spec.Value(), status.Value())
    }

    method DeepCopyInto(out: MountPoint)
      requires out != this && out.spec != spec && out.status != status
      modifies out, out.spec, out.status
      ensures out.Value() == Value() == old(Value())
      ensures fresh(out.Reach() - {out, out.spec, out.status})
    {
      out.meta := meta;
      spec.DeepCopyInto(out.spec);
      status.DeepCopyInto(out.status);
    }

    /** A new struct that shares nothing with this one. */
    method DeepCopy() returns (out: MountPoint)
      ensures fresh(out.Reach()) && out.Value() == Value() == old(Value())
    {
      out := new MountPoint();
      DeepCopyInto(out);
    }
  }

  class MountPointList {
    var meta: Meta
    var items: array?<MountPoint>

    constructor ()
    {
      meta, items := Meta("", "", map[], []), null;
    }

    /** The copy has the same items in the same order, a nil list stays nil, and everything an item of the copy
        reaches is fresh and lies in its own part of `reach`: it is shared neither with the source nor with another
        item of the copy. As nothing but `out` is written, later writes to either side, or to one item, leave
        the others as they were. */
    method DeepCopyInto(out: MountPointList) returns (ghost reach: seq<set<object>>)
      requires out != this
      modifies out
      ensures out.meta == meta && (out.items == null <==> items == null)
      ensures items != null ==> fresh(out.items) && out.items.Length == items.Length == |reach| && Apart(reach)
      ensures items != null ==> forall k :: 0 <= k < items.Length ==> out.items[k].Value() == items[k].Value()
      ensures items != null ==> forall k :: 0 <= k < items.Length ==>
        fresh(reach[k]) && out.items[k].Reach() <= reach[k]
    {
      out.meta, out.items, reach := meta, items, [];
      if items != null {
        var made;
        made, reach := CopyEach(items[..]);
        out.items := FromSeq(made);
      }
    }
  }

  predicate Apart(reach: seq<set<object>>) {
    forall j, k :: 0 <= j < k < |reach| ==> reach[j] !! reach[k]
  }

  lemma ApartSnoc(reach: seq<set<object>>, all: set<object>, next: set<object>)
    requires Apart(reach) && (forall k :: 0 <= k < |reach| ==> reach[k] <= all) && next !! all
    ensures Apart(reach + [next]) && forall k :: 0 <= k <= |reach| ==> (reach + [next])[k] <= all + next
  {
  }

  /** A new copy of each item of a sequence. */
  method CopyEach(source: seq<MountPoint>) returns (made: seq<MountPoint>, ghost reach: seq<set<object>>)
    ensures |made| == |source| == |reach| && Apart(reach)
    ensures forall k :: 0 <= k < |made| ==> made[k].Value() == source[k].Value()
    ensures forall k :: 0 <= k < |made| ==> fresh(reach[k]) && made[k].Reach() <= reach[k]
  {
    made, reach := [], [];
    ghost var all: set<object> := {};
    for i := 0 to |source|
      modifies {}
      invariant |made| == |reach| == i && fresh(all) && Apart(reach)
      invariant forall k :: 0 <= k < i ==> reach[k] <= all
      invariant forall k :: 0 <= k < i ==> made[k].Value() == source[k].Value() && made[k].Reach() <= reach[k]
    {
      var copy := source[i].DeepCopy();
      ghost var next := copy.Reach();
      ApartSnoc(reach, all, next);
      made, reach, all := made + [copy], reach + [next], all + next;
    }
  }
}
