/**
 The generated deep copies on a heap: pointers are boxes, slices are arrays, and embedded
 structs are objects owned by the struct around them. A copy looks like its source, keeps
 nil pointers and slices nil, and shares no storage with it.
 */
module DeepCopy {
  import opened Wrappers
  import opened Api

  /** What a Go pointer to a plain value points at. */
  class Box<T> {
    var value: T

    constructor (value: T)
      ensures this.value == value
    {
      this.value := value;
    }
  }

  ghost function BoxView<T>(b: Box?<T>): Option<T>
    reads b
  {
    if b == null then None else Some(b.value)
  }

  ghost function SliceView<T>(a: array?<T>): Option<seq<T>>
    reads a
  {
    if a == null then None else Some(a[..])
  }

  /** Both nil, or two pointers to the same value. */
  ghost predicate SameBox<T>(b: Box?<T>, c: Box?<T>)
    reads b, c
  {
    if b == null || c == null then b == c else b.value == c.value
  }

  /** Both nil, or two slices of the same length and elements. */
  ghost predicate SameSlice<T>(a: array?<T>, b: array?<T>)
    reads a, b
  {
    if a == null || b == null then a == b
    else a.Length == b.Length && forall i :: 0 <= i < a.Length ==> a[i] == b[i]
  }

  lemma SlicesThatLookAlike<T>(a: array?<T>, b: array?<T>)
    requires SliceView(a) == SliceView(b)
    ensures SameSlice(a, b)
  {
    if a != null && b != null {
      assert a[..] == b[..];
      assert |a[..]| == a.Length && |b[..]| == b.Length;
      assert forall i :: 0 <= i < a.Length ==> a[..][i] == a[i] && b[..][i] == b[i];
    }
  }

  method CopyBox<T>(b: Box?<T>) returns (c: Box?<T>)
    ensures BoxView(c) == BoxView(b)
    ensures c != null ==> fresh(c)
  {
    if b == null {
      return null;
    }
    c := new Box(b.value);
  }

  method CopySlice<T>(a: array?<T>) returns (b: array?<T>)
    ensures SliceView(b) == SliceView(a)
    ensures b != null ==> fresh(b)
  {
    if a == null {
      return null;
    }
    b := new T[a.Length](i requires 0 <= i < a.Length reads a => a[i]);
    assert b[..] == a[..];
  }

  method ToSlice<T>(s: seq<T>) returns (a: array<T>)
    ensures fresh(a) && a[..] == s
  {
    a := new T[|s|](i requires 0 <= i < |s| => s[i]);
    assert a[..] == s;
  }

  // ---------- BMCMachineStatus ----------

  datatype StatusScalars = StatusScalars(
    bmcServerID: string, bmcStatus: BMCStatus, cpu: string, cpuCount: int, cpuCores: int,
    cpuFrequency: string, ram: string, storage: string, ready: bool)

  datatype StatusView = StatusView(
    scalars: StatusScalars,
    privateIPs: Option<seq<string>>,
    publicIPs: Option<seq<string>>,
    addresses: Option<seq<NodeAddress>>,
    failureReason: Option<FailureReason>,
    failureMessage: Option<string>,
    nodeRef: Option<NodeRef>)

  class MachineStatusStruct {
    var scalars: StatusScalars
    var privateIPs: array?<string>
    var publicIPs: array?<string>
    var addresses: array?<NodeAddress>
    var failureReason: Box?<FailureReason>
    var failureMessage: Box?<string>
    var nodeRef: Box?<NodeRef>
    ghost var Repr: set<object?>  // the struct and all it points at

    ghost predicate Valid()
      reads this
    {
      Repr == {this, privateIPs, publicIPs, addresses, failureReason, failureMessage, nodeRef}
    }

    ghost function View(): StatusView
      requires Valid()
      reads this, Repr
    {
      StatusView(scalars, SliceView(privateIPs), SliceView(publicIPs), SliceView(addresses),
                 BoxView(failureReason), BoxView(failureMessage), BoxView(nodeRef))
    }

    /** What looks alike is alike, field by field and element by element. */
    lemma LooksAreContents(other: MachineStatusStruct)
      requires Valid() && other.Valid() && View() == other.View()
      ensures scalars == other.scalars
      ensures SameSlice(privateIPs, other.privateIPs) && SameSlice(publicIPs, other.publicIPs)
      ensures SameSlice(addresses, other.addresses)
      ensures SameBox(failureReason, other.failureReason) && SameBox(failureMessage, other.failureMessage)
      ensures SameBox(nodeRef, other.nodeRef)
    {
      SlicesThatLookAlike(privateIPs, other.privateIPs);
      SlicesThatLookAlike(publicIPs, other.publicIPs);
      SlicesThatLookAlike(addresses, other.addresses);
    }

    /** The zero value. */
    constructor ()
      ensures Valid() && fresh(Repr - {null})
    {
      scalars := StatusScalars("", OtherStatus(""), "", 0, 0, "", "", "", false);
      privateIPs, publicIPs, addresses, failureReason, failureMessage, nodeRef := null, null, null, null, null, null;
      Repr := {this, null};
    }

    method DeepCopyInto(out: MachineStatusStruct)
      requires Valid() && out != this
      modifies out
      ensures out.Valid() && fresh(out.Repr - {out, null})
      ensures Valid() && out.View() == View() == old(View())
    {
      // the assignment of the whole struct shares every pointer and slice at first
      out.scalars := scalars;
      out.privateIPs, out.publicIPs, out.addresses := privateIPs, publicIPs, addresses;
      out.failureReason, out.failureMessage, out.nodeRef := failureReason, failureMessage, nodeRef;
      CopySlicesInto(out);
      CopyPointersInto(out);
      out.Repr := {out, out.privateIPs, out.publicIPs, out.addresses, out.failureReason, out.failureMessage, out.nodeRef};
    }

    method CopySlicesInto(out: MachineStatusStruct)
      requires out != this
      modifies out`privateIPs, out`publicIPs, out`addresses
      ensures SliceView(out.privateIPs) == SliceView(privateIPs)
      ensures SliceView(out.publicIPs) == SliceView(publicIPs)
      ensures SliceView(out.addresses) == SliceView(addresses)
      ensures fresh({out.privateIPs, out.publicIPs} - {null}) && fresh({out.addresses} - {null})
    {
      out.privateIPs := CopySlice(privateIPs);
      out.publicIPs := CopySlice(publicIPs);
      out.addresses := CopySlice(addresses);
    }

    method CopyPointersInto(out: MachineStatusStruct)
      requires out != this
      modifies out`failureReason, out`failureMessage, out`nodeRef
      ensures BoxView(out.failureReason) == BoxView(failureReason)
      ensures BoxView(out.failureMessage) == BoxView(failureMessage)
      ensures BoxView(out.nodeRef) == BoxView(nodeRef)
      ensures fresh({out.failureReason} - {null}) && fresh({out.failureMessage} - {null}) && fresh({out.nodeRef} - {null})
    {
      out.failureReason := CopyBox(failureReason);
      out.failureMessage := CopyBox(failureMessage);
      out.nodeRef := CopyBox(nodeRef);
    }
  }

  // ---------- BMCMachineSpec ----------

  datatype SpecScalars = SpecScalars(
    description: string, os: string, serverType: string, location: string, networkType: string)

  datatype SpecView = SpecView(
    scalars: SpecScalars,
    providerID: Option<string>,
    installDefaultSSHKeys: Option<bool>,
    sshKeyIDs: Option<seq<string>>)

  class MachineSpecStruct {
    var scalars: SpecScalars
    var providerID: Box?<string>
    var installDefaultSSHKeys: Box?<bool>
    var sshKeyIDs: array?<string>
    ghost var Repr: set<object?>  // the struct and all it points at

    ghost predicate Valid()
      reads this
    {
      Repr == {this, providerID, installDefaultSSHKeys, sshKeyIDs}
    }

    ghost function View(): SpecView
      requires Valid()
      reads this, Repr
    {
      SpecView(scalars, BoxView(providerID), BoxView(installDefaultSSHKeys), SliceView(sshKeyIDs))
    }

    /** What looks alike is alike, field by field and element by element. */
    lemma LooksAreContents(other: MachineSpecStruct)
      requires Valid() && other.Valid() && View() == other.View()
      ensures scalars == other.scalars
      ensures SameBox(providerID, other.providerID) && SameBox(installDefaultSSHKeys, other.installDefaultSSHKeys)
      ensures SameSlice(sshKeyIDs, other.sshKeyIDs)
    {
      SlicesThatLookAlike(sshKeyIDs, other.sshKeyIDs);
    }

    /** The zero value. */
    constructor ()
      ensures Valid() && fresh(Repr - {null})
    {
      scalars := SpecScalars("", "", "", "", "");
      providerID, installDefaultSSHKeys, sshKeyIDs := null, null, null;
      Repr := {this, null};
    }

    method DeepCopyInto(out: MachineSpecStruct)
      requires Valid() && out != this
      modifies out
      ensures out.Valid() && fresh(out.Repr - {out, null})
      ensures Valid() && out.View() == View() == old(View())
    {
      out.scalars := scalars;
      out.providerID, out.installDefaultSSHKeys, out.sshKeyIDs := providerID, installDefaultSSHKeys, sshKeyIDs;
      out.providerID := CopyBox(providerID);
      out.installDefaultSSHKeys := CopyBox(installDefaultSSHKeys);
      out.sshKeyIDs := CopySlice(sshKeyIDs);
      out.Repr := {out, out.providerID, out.installDefaultSSHKeys, out.sshKeyIDs};
    }
  }

  // ---------- BMCMachine ----------

  /** Type and object metadata, copied by library code. */
  datatype Metadata = Metadata(name: string, namespace: string, annotations: Option<map<Annotation, string>>)

  datatype MachineView = MachineView(meta: Metadata, spec: SpecView, status: StatusView)

  class MachineStruct {
    var meta: Metadata
    const spec: MachineSpecStruct
    const status: MachineStatusStruct
    ghost var Repr: set<object?>  // the struct, the structs embedded in it, and all they point at

    ghost predicate Valid()
      reads this, spec, status
    {
      spec.Valid() && status.Valid() && Repr == {this} + spec.Repr + status.Repr
    }

    ghost function View(): MachineView
      requires Valid()
      reads this, spec, status, Repr
    {
      MachineView(meta, spec.View(), status.View())
    }

    /** The zero value. */
    constructor ()
      ensures Valid() && fresh(spec) && fresh(status) && fresh(Repr - {null})
    {
      meta := Metadata("", "", None);
      spec := new MachineSpecStruct();
      status := new MachineStatusStruct();
      new;
      Repr := {this} + spec.Repr + status.Repr;
    }

    method DeepCopyInto(out: MachineStruct)
      requires Valid() && out != this && out.spec != spec && out.status != status
      modifies out, out.spec, out.status
      ensures out.Valid() && fresh(out.Repr - {out, out.spec, out.status, null})
      ensures Valid() && out.View() == View() == old(View())
    {
      out.meta := meta;
      spec.DeepCopyInto(out.spec);
      status.DeepCopyInto(out.status);
      out.Repr := {out} + out.spec.Repr + out.status.Repr;
    }

    method DeepCopy() returns (out: MachineStruct)
      requires Valid()
      ensures out.Valid() && fresh(out.Repr - {null})
      ensures Valid() && out.View() == View() == old(View())
    {
      out := new MachineStruct();
      DeepCopyInto(out);
    }
  }

  // ---------- BMCMachineList ----------

  datatype ListView = ListView(meta: string, items: Option<seq<MachineView>>)

  class MachineListStruct {
    var meta: string
    var items: array?<MachineStruct>
    ghost var Repr: set<object?>  // the struct, the slice, its elements, and all they point at

    ghost predicate Valid()
      reads this, Repr
    {
      && this in Repr && items in Repr
      && (items != null ==> Elements(items[..], Repr))
    }

    ghost function View(): ListView
      requires Valid()
      reads this, Repr
    {
      ListView(meta, if items == null then None else Some(Views(items[..], Repr)))
    }

    /** No two elements share storage. */
    ghost predicate Apart()
      requires Valid()
      reads this, Repr
    {
      items != null ==> Separate(items[..])
    }

    /** The zero value. */
    constructor ()
      ensures Valid() && fresh(Repr - {null}) && items == null
    {
      meta := "";
      items := null;
      Repr := {this, null};
    }

    method DeepCopyInto(out: MachineListStruct)
      requires Valid() && out !in Repr
      modifies out
      ensures out.Valid() && fresh(out.Repr - {out, null}) && out.Apart()
      ensures out.View() == old(View())
    {
      ghost var look := View();
      if items == null {
        out.meta, out.items, out.Repr := meta, null, {out, null};
      } else {
        ghost var views := Views(items[..], Repr);
        assert look == ListView(meta, Some(views));
        var copies, repr := Copies(items, Repr);
        out.Adopt(meta, copies, repr, views);
      }
    }

    method Assign(meta: string, items: array<MachineStruct>, ghost repr: set<object?>)
      modifies this
      ensures this.meta == meta && this.items == items && Repr == repr
    {
      this.meta, this.items, Repr := meta, items, repr;
    }

    lemma LooksLikeItsSlice(repr: set<object?>, views: seq<MachineView>)
      requires items != null && Repr == {this, items, null} + repr
      requires Elements(items[..], repr) && Views(items[..], repr) == views
      ensures Valid() && View() == ListView(meta, Some(views))
    {
      ViewsWiden(items[..], repr, Repr);
    }

    /** Takes over a slice whose elements are valid and look as given. */
    method Adopt(meta: string, copies: array<MachineStruct>, ghost repr: set<object?>, ghost views: seq<MachineView>)
      requires Elements(copies[..], repr) && Views(copies[..], repr) == views && this !in repr && Separate(copies[..])
      modifies this
      ensures Valid() && Repr == {this, copies, null} + repr && Apart()
      ensures View() == ListView(meta, Some(views))
    {
      Assign(meta, copies, {this, copies, null} + repr);
      LooksLikeItsSlice(repr, views);
    }

    method DeepCopy() returns (out: MachineListStruct)
      requires Valid()
      ensures out.Valid() && fresh(out.Repr - {null}) && out.Apart()
      ensures out.View() == old(View())
    {
      out := new MachineListStruct();
      DeepCopyInto(out);
    }

    /** Whatever is written elsewhere, an untouched list looks as it did. */
    twostate lemma LooksTheSame()
      requires old(Valid()) && unchanged(old(Repr) - {null})
      ensures Valid() && View() == old(View()) && Repr == old(Repr)
      ensures old(Apart()) ==> Apart()
    {
    }
  }

  /** Valid elements inside a footprint. */
  ghost predicate Elements(ms: seq<MachineStruct>, repr: set<object?>)
    reads repr
  {
    forall m :: m in ms ==> m in repr && m.spec in repr && m.status in repr && m.Valid() && m.Repr <= repr
  }

  ghost function Views(ms: seq<MachineStruct>, repr: set<object?>): (views: seq<MachineView>)
    requires Elements(ms, repr)
    reads repr
    ensures |views| == |ms|
    ensures forall i :: 0 <= i < |ms| ==> views[i] == ms[i].View()
  {
    if ms == [] then [] else [ms[0].View()] + Views(ms[1..], repr)
  }

  /** A larger footprint shows the same elements. */
  lemma {:induction false} ViewsWiden(ms: seq<MachineStruct>, repr: set<object?>, wide: set<object?>)
    requires Elements(ms, repr) && repr <= wide
    ensures Elements(ms, wide) && Views(ms, wide) == Views(ms, repr)
  {
  }

  /** No two elements share storage. */
  ghost predicate Separate(ms: seq<MachineStruct>)
    reads ms
  {
    forall i, j :: 0 <= i < j < |ms| ==> ms[i].Repr * ms[j].Repr <= {null}
  }

  /** One element of a zeroed slice. */
  method Zeroed(made: seq<MachineStruct>, ghost repr: set<object?>)
    returns (more: seq<MachineStruct>, ghost wider: set<object?>)
    requires Elements(made, repr) && Separate(made)
    ensures |more| == |made| + 1 && fresh(wider - repr - {null})
    ensures Elements(more, wider) && Separate(more)
  {
    var zero := new MachineStruct();
    more, wider := made + [zero], repr + zero.Repr;
  }

  /** A new slice of zero values. */
  method MakeSlice(n: nat) returns (a: array<MachineStruct>, ghost repr: set<object?>)
    ensures fresh(a) && fresh(repr - {null}) && a.Length == n && a !in repr
    ensures Elements(a[..], repr) && Separate(a[..])
  {
    var made: seq<MachineStruct> := [];
    repr := {};
    for i := 0 to n
      invariant |made| == i && fresh(repr - {null})
      invariant Elements(made, repr) && Separate(made)
    {
      made, repr := Zeroed(made, repr);
    }
    a := ToSlice(made);
  }

  /** An element that shares nothing with the storage written to is as it was. */
  twostate lemma ElementUntouched(m: MachineStruct)
    requires old(m.Valid()) && unchanged(old(m.Repr) - {null})
    ensures m.Valid() && m.Repr == old(m.Repr) && m.View() == old(m.View())
  {
  }

  /** What a copy into a machine writes to. */
  ghost function Target(m: MachineStruct): set<object?> {
    {m, m.spec, m.status}
  }

  lemma TargetIsInside(m: MachineStruct, repr: set<object?>)
    requires m.Valid() && m.Repr <= repr
    ensures Target(m) <= m.Repr && Target(m) <= repr && null !in Target(m)
  {
    assert m.spec.Valid() && m.status.Valid();
  }

  /** A footprint that meets the machine's at most in nil contains nothing the copy writes to. */
  lemma TargetIsApart(m: MachineStruct, inside: set<object?>, repr: set<object?>)
    requires m.Valid() && m.Repr <= repr && inside * repr <= {null}
    ensures Target(m) * inside == {}
  {
    TargetIsInside(m, repr);
    assert Target(m) * inside <= inside * repr;
  }

  lemma ForeignTargetsDiffer(m: MachineStruct, n: MachineStruct, repr: set<object?>)
    requires m.Valid() && n.Valid() && n.Repr <= repr && m.Repr * repr <= {null}
    ensures m != n && m.spec != n.spec && m.status != n.status
  {
    TargetIsApart(n, m.Repr, repr);
    TargetIsInside(m, m.Repr);
    forall o | o in Target(m)
      ensures o !in Target(n)
    {
      assert o in m.Repr;
      assert o in Target(n) * m.Repr <==> o in Target(n);
    }
    assert m in Target(m) && m.spec in Target(m) && m.status in Target(m);
  }

  /** A deep copy of a machine into an element of the new slice, in place; the other elements are not touched. */
  method FillTarget(ms: seq<MachineStruct>, i: nat, m: MachineStruct, ghost repr: set<object?>)
    requires i < |ms| && Elements(ms, repr) && Separate(ms) && m.Valid() && m.Repr * repr <= {null}
    modifies Target(ms[i])
    ensures ms[i].Valid() && fresh(ms[i].Repr - Target(ms[i]) - {null}) && ms[i].View() == old(m.View())
    ensures forall j :: 0 <= j < |ms| && j != i ==>
              ms[j].Valid() && ms[j].Repr == old(ms[j].Repr) && ms[j].View() == old(ms[j].View())
  {
    assert ms[i] in ms;
    ForeignTargetsDiffer(m, ms[i], repr);
    forall j | 0 <= j < |ms| && j != i
      ensures ms[j].Valid() && Target(ms[i]) * ms[j].Repr == {}
    {
      OtherElementIsApart(ms, i, j, repr);
    }
    m.DeepCopyInto(ms[i]);
    forall j | 0 <= j < |ms| && j != i
      ensures ms[j].Valid() && ms[j].Repr == old(ms[j].Repr) && ms[j].View() == old(ms[j].View())
    {
      ElementUntouched(ms[j]);
    }
  }

  /** One turn of the loop: the slice stays valid, its elements apart. */
  method FillElement(ms: seq<MachineStruct>, i: nat, m: MachineStruct, ghost repr: set<object?>)
    returns (ghost wider: set<object?>)
    requires i < |ms| && Elements(ms, repr) && Separate(ms) && m.Valid() && m.Repr * repr <= {null}
    modifies Target(ms[i])
    ensures repr <= wider && fresh(wider - repr - {null})
    ensures Elements(ms, wider) && Separate(ms)
    ensures ms[i].View() == old(m.View())
    ensures forall j :: 0 <= j < |ms| && j != i ==> ms[j].View() == old(ms[j].View())
  {
    assert ms[i] in ms;
    TargetIsInside(ms[i], repr);
    FillTarget(ms, i, m, repr);
    wider := repr + ms[i].Repr;
    forall j | 0 <= j < |ms| && j != i
      ensures ms[j].Repr * ms[i].Repr <= {null}
    {
      assert ms[j] in ms;
    }
  }

  lemma OtherElementIsApart(ms: seq<MachineStruct>, i: nat, j: nat, repr: set<object?>)
    requires i < |ms| && j < |ms| && i != j && Elements(ms, repr) && Separate(ms)
    ensures ms[j].Valid() && Target(ms[i]) * ms[j].Repr == {}
  {
    assert ms[i] in ms && ms[j] in ms;
    if i < j {
      assert ms[i].Repr * ms[j].Repr <= {null};
    } else {
      assert ms[j].Repr * ms[i].Repr <= {null};
    }
    TargetIsApart(ms[i], ms[j].Repr, ms[i].Repr);
  }

  /** One turn of the loop as the source sees it: nothing of it is touched. */
  method FillNext(ms: seq<MachineStruct>, source: seq<MachineStruct>, i: nat, ghost inside: set<object?>,
                  ghost repr: set<object?>) returns (ghost wider: set<object?>)
    requires Elements(source, inside) && Elements(ms, repr) && Separate(ms)
    requires i < |ms| == |source| && inside * repr <= {null}
    modifies Target(ms[i])
    ensures repr <= wider && fresh(wider - repr - {null}) && inside * wider <= {null}
    ensures Elements(source, inside) && Views(source, inside) == old(Views(source, inside))
    ensures Elements(ms, wider) && Separate(ms)
    ensures ms[i].View() == old(Views(source, inside))[i]
    ensures forall j :: 0 <= j < |ms| && j != i ==> ms[j].View() == old(ms[j].View())
  {
    assert ms[i] in ms && source[i] in source;
    TargetIsApart(ms[i], inside, repr);
    wider := FillElement(ms, i, source[i], repr);
    forall j | 0 <= j < |source|
      ensures source[j].Valid() && source[j].Repr == old(source[j].Repr) && source[j].View() == old(source[j].View())
    {
      assert source[j] in source;
      ElementUntouched(source[j]);
    }
  }

  /** The first n elements of the new slice look like those of the source. */
  ghost predicate FilledUpTo(ms: seq<MachineStruct>, repr: set<object?>, views: seq<MachineView>, n: nat)
    reads repr
  {
    && Elements(ms, repr) && |ms| == |views| && n <= |ms|
    && forall j :: 0 <= j < n ==> ms[j].View() == views[j]
  }

  /** One turn of the loop as the result sees it: one element more looks like the source's. */
  method FillStep(ms: seq<MachineStruct>, source: seq<MachineStruct>, i: nat, ghost inside: set<object?>,
                  ghost repr: set<object?>, ghost views: seq<MachineView>) returns (ghost wider: set<object?>)
    requires Elements(source, inside) && Views(source, inside) == views
    requires i < |ms| == |source| && inside * repr <= {null}
    requires FilledUpTo(ms, repr, views, i) && Separate(ms)
    modifies Target(ms[i])
    ensures repr <= wider && fresh(wider - repr - {null}) && inside * wider <= {null}
    ensures Elements(source, inside) && Views(source, inside) == views
    ensures FilledUpTo(ms, wider, views, i + 1) && Separate(ms)
  {
    wider := FillNext(ms, source, i, inside, repr);
  }

  /** The loop over the elements of the new slice. */
  method FillAll(ms: seq<MachineStruct>, source: seq<MachineStruct>, ghost inside: set<object?>, ghost repr: set<object?>)
    returns (ghost wider: set<object?>)
    requires Elements(source, inside) && Elements(ms, repr) && Separate(ms)
    requires |ms| == |source| && inside * repr <= {null}
    modifies repr - {null}
    ensures repr <= wider && fresh(wider - repr - {null})
    ensures Elements(ms, wider) && Separate(ms)
    ensures Views(ms, wider) == old(Views(source, inside))
  {
    ghost var views := Views(source, inside);
    wider := repr;
    for i := 0 to |ms|
      invariant repr <= wider && fresh(wider - repr - {null}) && inside * wider <= {null}
      invariant Elements(source, inside) && Views(source, inside) == views
      invariant FilledUpTo(ms, wider, views, i) && Separate(ms)
    {
      assert ms[i] in ms;
      wider := FillStep(ms, source, i, inside, wider, views);
    }
  }

  /** A new slice, each element of which is filled with a deep copy. */
  method Copies(source: array<MachineStruct>, ghost inside: set<object?>)
    returns (copies: array<MachineStruct>, ghost repr: set<object?>)
    requires Elements(source[..], inside)
    ensures fresh(copies) && fresh(repr - {null})
    ensures Elements(copies[..], repr) && Separate(copies[..])
    ensures Views(copies[..], repr) == old(Views(source[..], inside))
  {
    copies, repr := MakeSlice(source.Length);
    repr := FillAll(copies[..], source[..], inside, repr);
  }

  /** Whatever is done in place to the original after copying it, the copy stays as the original was. */
  method CopyThenWrite(l: MachineListStruct) returns (copy: MachineListStruct)
    requires l.Valid()
    modifies l.Repr - {null}
    ensures copy.Valid() && copy.View() == old(l.View())
    ensures copy.Repr * old(l.Repr) <= {null} && copy.Apart()
  {
    copy := l.DeepCopy();
    label Copied:
    modify l.Repr - {null};
    copy.LooksTheSame@Copied();
  }

  /** Whatever is done in place to a copy, the original stays as it was. */
  method CopyThenWriteToCopy(l: MachineListStruct)
    requires l.Valid()
    ensures l.Valid() && l.Repr == old(l.Repr) && l.View() == old(l.View())
  {
    var copy := l.DeepCopy();
    modify copy.Repr - {null};
    l.LooksTheSame();
  }

  // ---------- BMCClusterStatus ----------

  datatype ClusterStatusView = ClusterStatusView(ready: bool, errorMessage: Option<string>, id: string,
                                                 cidr: string, bmcStatus: BMCStatus)

  class ClusterStatusStruct {
    var ready: bool
    var errorMessage: Box?<string>
    var id: string
    var cidr: string
    var bmcStatus: BMCStatus
    ghost var Repr: set<object?>  // the struct and all it points at

    ghost predicate Valid()
      reads this
    {
      Repr == {this, errorMessage}
    }

    ghost function View(): ClusterStatusView
      requires Valid()
      reads this, Repr
    {
      ClusterStatusView(ready, BoxView(errorMessage), id, cidr, bmcStatus)
    }

    method DeepCopyInto(out: ClusterStatusStruct)
      requires Valid() && out != this
      modifies out
      ensures out.Valid() && fresh(out.Repr - {out, null})
      ensures Valid() && out.View() == View() == old(View())
    {
      out.ready, out.errorMessage, out.id, out.cidr, out.bmcStatus := ready, errorMessage, id, cidr, bmcStatus;
      out.errorMessage := CopyBox(errorMessage);
      out.Repr := {out, out.errorMessage};
    }
  }
}
