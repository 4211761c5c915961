/** Compute groups as they lie in memory: structs of pointers, slices and maps, their values, and their deep copies. */
module Objects {
  import opened Options
  import opened Spec

  /** What a pointer to a number or a text refers to; nothing is ever written through such a pointer. */
  class Box<T> {
    const value: T

    constructor (value: T)
      ensures this.value == value
    {
      this.value := value;
    }
  }

  /** What a map, a slice or a pointer to a struct refers to. */
  class Ptr<T> {
    var value: T

    constructor (value: T)
      ensures this.value == value
    {
      this.value := value;
    }
  }

  function Unbox<T>(p: Box?<T>): Option<T> {
    if p == null then None else Some(p.value)
  }

  function Deref<T>(p: Ptr?<T>): Option<T>
    reads p
  {
    if p == null then None else Some(p.value)
  }

  ghost function Cell(p: object?): set<object> {
    if p == null then {} else {p}
  }

  datatype InstanceStruct = InstanceStruct(
    name: Box?<string>,
    cores: Box?<int32>,
    coreLimit: Box?<string>,
    memory: Box?<string>,
    memoryLimit: Box?<string>,
    labels: Ptr?<map<string, string>>,
    image: Box?<string>,
    imagePullPolicy: Box?<string>,
    priority: Box?<int32>,
    mysqlPort: Box?<int32>,
    clickhousePort: Box?<int32>,
    httpPort: Box?<int32>,
    rpcPort: Box?<int32>,
    metricsPort: Box?<int32>)
  {
    ghost function Resources(): set<object> {
      Cell(name) + Cell(cores) + Cell(coreLimit) + Cell(memory) + Cell(memoryLimit)
    }

    ghost function Settings(): set<object> {
      Cell(labels) + Cell(image) + Cell(imagePullPolicy) + Cell(priority)
    }

    ghost function Ports(): set<object> {
      Cell(mysqlPort) + Cell(clickhousePort) + Cell(httpPort) + Cell(rpcPort) + Cell(metricsPort)
    }

    ghost function Reach(): set<object> {
      Resources() + Settings() + Ports()
    }

    function Value(): InstanceSpec
      reads labels
    {
      InstanceSpec(Unbox(name), Unbox(cores), Unbox(coreLimit), Unbox(memory), Unbox(memoryLimit), Deref(labels),
                   Unbox(image), Unbox(imagePullPolicy), Unbox(priority), Unbox(mysqlPort), Unbox(clickhousePort),
                   Unbox(httpPort), Unbox(rpcPort), Unbox(metricsPort))
    }
  }

  datatype SetStruct = SetStruct(replicas: Box?<int32>, instance: InstanceStruct) {
    ghost function Reach(): set<object> {
      Cell(replicas) + instance.Reach()
    }

    function Value(): SetSpec
      reads instance.labels
    {
      SetSpec(Unbox(replicas), instance.Value())
    }
  }

  type SetPtr = Ptr?<SetStruct>

  ghost function SetReach(p: SetPtr): set<object>
    reads p
  {
    if p == null then {} else {p} + p.value.Reach()
  }

  /** The cells of a set that can be written to. */
  ghost function SetCells(p: SetPtr): set<object>
    reads p
  {
    if p == null then {} else {p} + Cell(p.value.instance.labels)
  }

  function SetValue(p: SetPtr): Option<SetSpec>
    reads p, SetCells(p)
  {
    if p == null then None else Some(p.value.Value())
  }

  method CopyBox<T>(p: Box?<T>) returns (q: Box?<T>)
    ensures Unbox(q) == Unbox(p) && fresh(Cell(q))
  {
    if p == null {
      q := null;
    } else {
      q := new Box(p.value);
    }
  }

  method CopyPtr<T>(p: Ptr?<T>) returns (q: Ptr?<T>)
    ensures Deref(q) == Deref(p) && fresh(Cell(q))
  {
    if p == null {
      q := null;
    } else {
      q := new Ptr(p.value);
    }
  }

  /* The copy of an instance spec starts as the struct itself; then its pointers are replaced, field by field. */

  method CopyResources(from: InstanceStruct) returns (out: InstanceStruct)
    ensures out.Value() == from.Value() && fresh(out.Resources())
  {
    var name := CopyBox(from.name);
    var cores := CopyBox(from.cores);
    var coreLimit := CopyBox(from.coreLimit);
    var memory := CopyBox(from.memory);
    var memoryLimit := CopyBox(from.memoryLimit);
    out := from.(name := name, cores := cores, coreLimit := coreLimit, memory := memory, memoryLimit := memoryLimit);
  }

  method CopySettings(from: InstanceStruct) returns (out: InstanceStruct)
    ensures out.Value() == from.Value() && fresh(out.Settings()) && out.Resources() == from.Resources()
  {
    var labels := CopyPtr(from.labels);
    var image := CopyBox(from.image);
    var imagePullPolicy := CopyBox(from.imagePullPolicy);
    var priority := CopyBox(from.priority);
    out := from.(labels := labels, image := image, imagePullPolicy := imagePullPolicy, priority := priority);
  }

  method CopyPorts(from: InstanceStruct) returns (out: InstanceStruct)
    ensures out.Value() == from.Value() && fresh(out.Ports())
    ensures out.Resources() == from.Resources() && out.Settings() == from.Settings()
  {
    var mysqlPort := CopyBox(from.mysqlPort);
    var clickhousePort := CopyBox(from.clickhousePort);
    var httpPort := CopyBox(from.httpPort);
    var rpcPort := CopyBox(from.rpcPort);
    var metricsPort := CopyBox(from.metricsPort);
    out := from.(mysqlPort := mysqlPort, clickhousePort := clickhousePort, httpPort := httpPort, rpcPort := rpcPort,
                 metricsPort := metricsPort);
  }

  method DeepCopyInstance(from: InstanceStruct) returns (out: InstanceStruct)
    ensures out.Value() == from.Value() && fresh(out.Reach())
  {
    out := CopyResources(from);
    ghost var cells := out.Resources();
    out := CopySettings(out);
    cells := cells + out.Settings();
    assert fresh(cells);
    out := CopyPorts(out);
    cells := cells + out.Ports();
    assert fresh(cells);
  }

  method DeepCopySet(p: SetPtr) returns (q: SetPtr)
    ensures SetValue(q) == SetValue(p) && fresh(SetReach(q)) && fresh(SetCells(q))
  {
    if p == null {
      return null;
    }
    var replicas := CopyBox(p.value.replicas);
    var instance := DeepCopyInstance(p.value.instance);
    q := new Ptr(SetStruct(replicas, instance));
  }

  /* The workers of a group spec: a slice of pointers. */

  ghost function Pointers(ws: seq<SetPtr>): set<object> {
    set w: SetPtr | w in ws && w != null :: w
  }

  ghost function WorkersCells(ws: seq<SetPtr>): set<object>
    reads Pointers(ws)
  {
    set w: SetPtr, o | w in ws && o in SetCells(w) :: o
  }

  function WorkerValue(ws: seq<SetPtr>, i: nat): Option<SetSpec>
    requires i < |ws|
    reads Pointers(ws), WorkersCells(ws)
  {
    assert ws[i] in ws;
    SetValue(ws[i])
  }

  function WorkersValue(ws: seq<SetPtr>): seq<Option<SetSpec>>
    reads Pointers(ws), WorkersCells(ws)
  {
    seq(|ws|, i requires 0 <= i < |ws| reads Pointers(ws), WorkersCells(ws) => WorkerValue(ws, i))
  }

  method DeepCopyWorkers(ws: seq<SetPtr>) returns (out: seq<SetPtr>)
    ensures |out| == |ws| && forall j :: 0 <= j < |ws| ==> SetValue(out[j]) == SetValue(ws[j])
    ensures forall w :: w in out ==> fresh(SetReach(w)) && fresh(SetCells(w))
  {
    out := [];
    for i := 0 to |ws|
      invariant |out| == i
      invariant forall j :: 0 <= j < i ==> SetValue(out[j]) == SetValue(ws[j])
      invariant forall j :: 0 <= j < i ==> fresh(SetReach(out[j])) && fresh(SetCells(out[j]))
    {
      var copy := DeepCopySet(ws[i]);
      out := out + [copy];
    }
  }

  type SlicePtr = Ptr?<seq<SetPtr>>

  ghost function Elements(p: SlicePtr): set<object>
    reads p
  {
    if p == null then {} else {p} + Pointers(p.value)
  }

  ghost function SliceCells(p: SlicePtr): set<object>
    reads p, Elements(p)
  {
    if p == null then {} else {p} + Pointers(p.value) + WorkersCells(p.value)
  }

  function SliceValue(p: SlicePtr): Option<seq<Option<SetSpec>>>
    reads p, SliceCells(p)
  {
    if p == null then None else Some(WorkersValue(p.value))
  }

  method CopySlice(p: SlicePtr) returns (q: SlicePtr)
    ensures SliceValue(q) == SliceValue(p)
    ensures q != null ==> fresh(q) && forall w :: w in q.value ==> fresh(SetReach(w)) && fresh(SetCells(w))
  {
    if p == null {
      return null;
    }
    var workers := DeepCopyWorkers(p.value);
    q := new Ptr(workers);
    assert forall j :: 0 <= j < |workers| ==> WorkersValue(workers)[j] == SetValue(workers[j]);
    assert WorkersValue(workers) == WorkersValue(p.value);
  }

  method DeepCopySlice(p: SlicePtr) returns (q: SlicePtr)
    ensures SliceValue(q) == SliceValue(p) && fresh(SliceCells(q))
    ensures q != null ==> fresh(q) && forall w :: w in q.value ==> fresh(SetReach(w))
  {
    q := CopySlice(p);
  }

  datatype GroupSpecStruct = GroupSpecStruct(leaders: SetPtr, workers: SlicePtr, name: string, namespace: string) {
    ghost function Cells(): set<object>
      reads leaders, workers, Elements(workers)
    {
      SetCells(leaders) + SliceCells(workers)
    }

    function Value(): GroupSpec
      reads leaders, workers, Cells()
    {
      GroupSpec(SetValue(leaders), SliceValue(workers), name, namespace)
    }
  }

  method DeepCopySpec(from: GroupSpecStruct) returns (out: GroupSpecStruct)
    ensures out.Value() == from.Value()
    ensures fresh(SetReach(out.leaders)) && fresh(Cell(out.workers))
    ensures out.workers != null ==> forall w :: w in out.workers.value ==> fresh(SetReach(w))
    ensures fresh(out.Cells())
  {
    var leaders := DeepCopySet(from.leaders);
    var workers := DeepCopySlice(from.workers);
    out := from.(leaders := leaders, workers := workers);
  }

  type StatesPtr = Ptr?<StateMap>

  datatype StatusStruct = StatusStruct(
    readyLeaders: StatesPtr, readyWorkers: StatesPtr, status: string, serviceName: string)
  {
    ghost function Reach(): set<object> {
      Cell(readyLeaders) + Cell(readyWorkers)
    }

    function Value(): GroupStatus
      reads readyLeaders, readyWorkers
    {
      GroupStatus(Deref(readyLeaders), Deref(readyWorkers), status, serviceName)
    }
  }

  method DeepCopyStatus(from: StatusStruct) returns (out: StatusStruct)
    ensures out.Value() == from.Value() && fresh(out.Reach())
    ensures out.readyLeaders == null || out.readyLeaders != out.readyWorkers
  {
    var readyLeaders := CopyPtr(from.readyLeaders);
    var readyWorkers := CopyPtr(from.readyWorkers);
    out := from.(readyLeaders := readyLeaders, readyWorkers := readyWorkers);
  }

  /** The metadata and the spec of a compute group, which nothing here assigns to once they are set. */
  datatype BaseStruct = BaseStruct(
    namespace: string,
    name: string,
    uid: string,
    version: nat,
    labels: Ptr?<Labels>,
    owners: seq<OwnerRef>,
    spec: GroupSpecStruct)
  {
    ghost function Cells(): set<object>
      reads spec.leaders, spec.workers, Elements(spec.workers)
    {
      Cell(labels) + spec.Cells()
    }

    /** The group with this status. */
    function With(s: GroupStatus): ComputeGroup
      reads labels, spec.leaders, spec.workers, Cells()
    {
      ComputeGroup(namespace, name, uid, version, if labels == null then map[] else labels.value, owners,
          spec.Value(), s)
    }
  }

  method DeepCopyBase(from: BaseStruct, ghost s: GroupStatus, ghost others: set<object>)
    returns (out: BaseStruct, ghost cells: set<object>)
    ensures out.With(s) == from.With(s) && (out.labels == null <==> from.labels == null)
    ensures fresh(Cell(out.labels)) && fresh(SetReach(out.spec.leaders)) && fresh(Cell(out.spec.workers))
    ensures out.spec.workers != null ==> forall w :: w in out.spec.workers.value ==> fresh(SetReach(w))
    ensures cells == out.Cells() && fresh(cells) && cells !! others
  {
    var labels := CopyPtr(from.labels);
    var spec := DeepCopySpec(from.spec);
    out := from.(labels := labels, spec := spec);
    cells := out.Cells();
  }

  /** A compute group that pointers refer to. */
  class GroupObject {
    const base: BaseStruct
    var status: StatusStruct
    /** The cells of the metadata and the spec. */
    ghost const BaseRepr: set<object>
    ghost var Repr: set<object>

    constructor (base: BaseStruct, status: StatusStruct, ghost cells: set<object>, ghost maps: set<object>,
                 ghost value: ComputeGroup)
      requires base.Cells() == cells && status.Reach() == maps && base.With(status.Value()) == value
      requires maps !! cells && (status.readyLeaders == null || status.readyLeaders != status.readyWorkers)
      ensures this.base == base && this.status == status && BaseRepr == cells && Repr == {this} + cells + maps
      ensures Valid() && Value() == value
    {
      this.base := base;
      this.status := status;
      BaseRepr := cells;
      Repr := {this} + cells + maps;
      new;
      assert base.Cells() == cells;
    }

    /** The status maps are two maps of their own, apart from the rest of the group. */
    ghost predicate Valid()
      reads this, Repr
    {
      && Repr == {this} + BaseRepr + status.Reach()
      && Cell(base.spec.leaders) + Cell(base.spec.workers) <= BaseRepr && Elements(base.spec.workers) <= BaseRepr
      && base.Cells() == BaseRepr
      && this !in BaseRepr && this !in status.Reach() && status.Reach() !! BaseRepr
      && (status.readyLeaders == null || status.readyLeaders != status.readyWorkers)
    }

    function Value(): ComputeGroup
      requires Valid()
      reads this, Repr
    {
      base.With(status.Value())
    }

    /** DeepCopy: an equal group, made of new cells only. */
    method DeepCopy() returns (copy: GroupObject)
      requires Valid()
      ensures copy.Valid() && copy.Value() == old(Value()) && fresh(copy) && fresh(copy.Repr)
    {
      ghost var value := Value();
      var status := DeepCopyStatus(status);
      ghost var maps := status.Reach();
      var base, cells := DeepCopyBase(base, value.status, maps);
      assert fresh(maps + cells);
      BaseStays(this);
      assert status.Value() == value.status;
      copy := new GroupObject(base, status, cells, maps, value);
    }
  }

  /** Writes elsewhere leave the metadata and the spec as they are. */
  twostate lemma BaseStays(g: GroupObject)
    requires old(g.Valid()) && forall o :: o in g.BaseRepr ==> unchanged(o)
    ensures Cell(g.base.spec.leaders) + Cell(g.base.spec.workers) <= g.BaseRepr &&
        Elements(g.base.spec.workers) <= g.BaseRepr
    ensures g.base.Cells() == g.BaseRepr && forall s: GroupStatus :: g.base.With(s) == old(g.base.With(s))
  {
  }
}
