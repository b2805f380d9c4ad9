/**
 * PropertyAccess: reads and updates JavaBean properties by name through
 * per-class adapters, which it caches until clearCache.
 *
 * A class is what introspection reports about it: its property descriptors
 * and, for an interface, the interfaces it extends (introspection does not
 * report the properties of those, so the adapter walks them itself). An
 * adapter keeps one entry per property name, names being compared ignoring
 * case; indexed properties have no plain type and are left out. A bean
 * instance is its class, its toString() and the values behind its accessors.
 */
module PropertyAccess {
  import opened Wrappers
  import opened Text

  /** What a getter returns and a setter receives. */
  datatype Value = Null | IntValue(i: int) | BoolValue(b: bool) | StringValue(s: string)

  /**
   * A getter or setter: its name, its annotations (annotation type to the
   * annotation's value()), and the message of the exception it throws when
   * invoked, if it throws one.
   */
  datatype AccessMethod = AccessMethod(name: string, annotations: map<string, string>, failure: Option<string>)

  /** A PropertyDescriptor; the type is None for an indexed property. */
  datatype PropertyDescriptor = PropertyDescriptor(
    name: string, propertyType: Option<string>, readMethod: Option<AccessMethod>, writeMethod: Option<AccessMethod>)

  /** A class or interface as introspection reports it. */
  datatype BeanType = BeanType(
    className: string, isInterface: bool, declared: seq<PropertyDescriptor>, superInterfaces: seq<BeanType>)

  function Elements<T>(s: seq<T>): set<T> {
    set x | x in s
  }

  // ---------------------------------------------------------------------
  // Collecting the descriptors of a class

  /** How many types the super-interface tree of `t` holds, `t` included. */
  function Size(t: BeanType): nat
    decreases t
  {
    1 + SizeAll(t.superInterfaces)
  }

  function SizeAll(ts: seq<BeanType>): nat
    decreases ts
  {
    if ts == [] then 0 else Size(ts[0]) + SizeAll(ts[1..])
  }

  lemma {:induction false} SizeAllAppend(a: seq<BeanType>, b: seq<BeanType>)
    ensures SizeAll(a + b) == SizeAll(a) + SizeAll(b)
    decreases |a|
  {
    if a == [] {
      assert a + b == b;
    } else {
      assert (a + b)[1..] == a[1..] + b;
      SizeAllAppend(a[1..], b);
    }
  }

  /**
   * The walk of addPropertiesFromExtendedInterfaces: the interface at the
   * front of the queue contributes its own descriptors and queues the
   * interfaces it extends.
   */
  function QueueDescriptors(queue: seq<BeanType>): seq<PropertyDescriptor>
    decreases SizeAll(queue)
  {
    if queue == [] then []
    else
      SizeAllAppend(queue[1..], queue[0].superInterfaces);
      assert SizeAll(queue) == 1 + SizeAll(queue[0].superInterfaces) + SizeAll(queue[1..]);
      queue[0].declared + QueueDescriptors(queue[1..] + queue[0].superInterfaces)
  }

  /** The descriptors buildAdapter collects: the class's own and, for an interface, those of every interface it extends. */
  function Descriptors(t: BeanType): seq<PropertyDescriptor> {
    t.declared + if t.isInterface then QueueDescriptors(t.superInterfaces) else []
  }

  /** A reference definition: the descriptors declared anywhere in the tree of `t`. */
  function TreeDescriptors(t: BeanType): set<PropertyDescriptor>
    decreases t
  {
    Elements(t.declared) + TreeDescriptorsAll(t.superInterfaces)
  }

  function TreeDescriptorsAll(ts: seq<BeanType>): set<PropertyDescriptor>
    decreases ts
  {
    if ts == [] then {} else TreeDescriptors(ts[0]) + TreeDescriptorsAll(ts[1..])
  }

  lemma {:induction false} TreeDescriptorsAllAppend(a: seq<BeanType>, b: seq<BeanType>)
    ensures TreeDescriptorsAll(a + b) == TreeDescriptorsAll(a) + TreeDescriptorsAll(b)
    decreases |a|
  {
    if a == [] {
      assert a + b == b;
    } else {
      assert (a + b)[1..] == a[1..] + b;
      TreeDescriptorsAllAppend(a[1..], b);
    }
  }

  /** The queue walk reaches every interface below the queue, and nothing else. */
  lemma {:induction false} QueueDescriptorsCoverTree(queue: seq<BeanType>)
    ensures Elements(QueueDescriptors(queue)) == TreeDescriptorsAll(queue)
    decreases SizeAll(queue)
  {
    if queue != [] {
      var next := queue[1..] + queue[0].superInterfaces;
      SizeAllAppend(queue[1..], queue[0].superInterfaces);
      assert SizeAll(queue) == 1 + SizeAll(queue[0].superInterfaces) + SizeAll(queue[1..]);
      QueueDescriptorsCoverTree(next);
      TreeDescriptorsAllAppend(queue[1..], queue[0].superInterfaces);
      ElementsAppend(queue[0].declared, QueueDescriptors(next));
    }
  }

  lemma ElementsAppend<T>(a: seq<T>, b: seq<T>)
    ensures Elements(a + b) == Elements(a) + Elements(b)
  {
  }

  /**
   * The properties of an interface include those of every interface it
   * extends, however far up; a class has exactly the descriptors
   * introspection reports for it.
   */
  lemma InheritedDescriptors(t: BeanType)
    ensures t.isInterface ==> Elements(Descriptors(t)) == TreeDescriptors(t)
    ensures !t.isInterface ==> Descriptors(t) == t.declared
  {
    if t.isInterface {
      QueueDescriptorsCoverTree(t.superInterfaces);
      ElementsAppend(t.declared, QueueDescriptors(t.superInterfaces));
    } else {
      assert t.declared + [] == t.declared;
    }
  }

  // ---------------------------------------------------------------------
  // Property adapters

  /** A PropertyAdapter: one property of a class, with its accessors. */
  datatype PropertyAdapter = PropertyAdapter(
    name: string, propertyType: string, readMethod: Option<AccessMethod>, writeMethod: Option<AccessMethod>)
  {
    /** isRead: there is a getter. */
    predicate IsRead() {
      readMethod.Some?
    }

    /** isUpdate: there is a setter. */
    predicate IsUpdate() {
      writeMethod.Some?
    }

    /** getAnnotation: the getter's annotation of that type, else the setter's, else none. */
    function GetAnnotation(annotationType: string): (r: Option<string>)
      ensures IsRead() && annotationType in readMethod.value.annotations ==>
        r == Some(readMethod.value.annotations[annotationType])
      ensures (!(IsRead() && annotationType in readMethod.value.annotations) && IsUpdate()
        && annotationType in writeMethod.value.annotations) ==>
        r == Some(writeMethod.value.annotations[annotationType])
      ensures r.None? <==>
        (!IsRead() || annotationType !in readMethod.value.annotations)
        && (!IsUpdate() || annotationType !in writeMethod.value.annotations)
    {
      if readMethod.Some? && annotationType in readMethod.value.annotations then
        Some(readMethod.value.annotations[annotationType])
      else if writeMethod.Some? && annotationType in writeMethod.value.annotations then
        Some(writeMethod.value.annotations[annotationType])
      else None
    }
  }

  /** The adapter made from a descriptor that is not indexed. */
  function AdapterOf(d: PropertyDescriptor): (pa: PropertyAdapter)
    requires d.propertyType.Some?
    ensures pa.name == d.name && pa.propertyType == d.propertyType.value
    ensures pa.readMethod == d.readMethod && pa.writeMethod == d.writeMethod
  {
    PropertyAdapter(d.name, d.propertyType.value, d.readMethod, d.writeMethod)
  }

  /** One entry of the case-insensitive map of adapters: the key as first put, and the adapter. */
  datatype Entry = Entry(key: string, adapter: PropertyAdapter)

  /** No two keys are equal ignoring case. */
  predicate DistinctKeys(table: seq<Entry>) {
    forall i, j :: 0 <= i < j < |table| ==> !EqualsIgnoreCase(table[i].key, table[j].key)
  }

  /** Where the map keeps the entry for `name`, if it has one. */
  function FindKey(table: seq<Entry>, name: string): (r: Option<nat>)
    ensures r.Some? ==> r.value < |table| && EqualsIgnoreCase(table[r.value].key, name)
    ensures r.None? ==> forall i :: 0 <= i < |table| ==> !EqualsIgnoreCase(table[i].key, name)
  {
    if table == [] then None
    else
      var found := FindKey(table[..|table| - 1], name);
      if found.Some? then found
      else if EqualsIgnoreCase(table[|table| - 1].key, name) then Some(|table| - 1)
      else None
  }

  /** get(name) on the case-insensitive map. */
  function Lookup(table: seq<Entry>, name: string): Option<PropertyAdapter> {
    match FindKey(table, name)
    case None => None
    case Some(i) => Some(table[i].adapter)
  }

  /** put(pa.name, pa) on the case-insensitive map: a key already present keeps its spelling and takes the new adapter. */
  function Put(table: seq<Entry>, pa: PropertyAdapter): (r: seq<Entry>)
    requires DistinctKeys(table)
    ensures DistinctKeys(r)
  {
    match FindKey(table, pa.name)
    case None => table + [Entry(pa.name, pa)]
    case Some(i) => table[i := Entry(table[i].key, pa)]
  }

  /** The adapters the ClassPropertyAdapter keeps for the descriptors, taken in order, indexed ones skipped. */
  function AdapterTable(descriptors: seq<PropertyDescriptor>): (r: seq<Entry>)
    ensures DistinctKeys(r)
  {
    if descriptors == [] then []
    else
      var d := descriptors[|descriptors| - 1];
      var table := AdapterTable(descriptors[..|descriptors| - 1]);
      if d.propertyType.Some? then Put(table, AdapterOf(d)) else table
  }

  function Keys(table: seq<Entry>): (r: seq<string>)
    ensures |r| == |table| && forall i :: 0 <= i < |table| ==> r[i] == table[i].key
  {
    seq(|table|, i requires 0 <= i < |table| => table[i].key)
  }

  /** A reference definition: the last descriptor, not indexed, whose name equals `name` ignoring case. */
  function LastMatch(descriptors: seq<PropertyDescriptor>, name: string): (r: Option<PropertyDescriptor>)
    ensures r.Some? ==> r.value.propertyType.Some? && EqualsIgnoreCase(r.value.name, name)
  {
    if descriptors == [] then None
    else
      var d := descriptors[|descriptors| - 1];
      if d.propertyType.Some? && EqualsIgnoreCase(d.name, name) then Some(d)
      else LastMatch(descriptors[..|descriptors| - 1], name)
  }

  /** With keys distinct ignoring case, a key matching the name is the one FindKey finds. */
  lemma FindKeyUnique(table: seq<Entry>, name: string, k: nat)
    requires DistinctKeys(table) && k < |table| && EqualsIgnoreCase(table[k].key, name)
    ensures FindKey(table, name) == Some(k)
  {
    var found := FindKey(table, name);
    assert found.Some?;
    assert EqualsIgnoreCase(table[found.value].key, table[k].key);
  }

  /** Looking up after a put finds the new adapter under its own name, and otherwise what was there. */
  lemma LookupPut(table: seq<Entry>, pa: PropertyAdapter, name: string)
    requires DistinctKeys(table)
    ensures Lookup(Put(table, pa), name) == if EqualsIgnoreCase(pa.name, name) then Some(pa) else Lookup(table, name)
  {
    var r := Put(table, pa);
    var before := FindKey(table, name);
    match FindKey(table, pa.name)
    case None =>
      if EqualsIgnoreCase(pa.name, name) {
        FindKeyUnique(r, name, |table|);
      } else if before.Some? {
        assert r[before.value] == table[before.value];
        FindKeyUnique(r, name, before.value);
      } else {
        assert forall i :: 0 <= i < |r| ==> !EqualsIgnoreCase(r[i].key, name);
      }
    case Some(i) =>
      if EqualsIgnoreCase(pa.name, name) {
        FindKeyUnique(r, name, i);
      } else {
        assert !EqualsIgnoreCase(table[i].key, name);
        if before.Some? {
          assert r[before.value] == table[before.value];
          FindKeyUnique(r, name, before.value);
        } else {
          assert forall j :: 0 <= j < |r| ==> !EqualsIgnoreCase(r[j].key, name);
        }
      }
  }

  /** The adapter for a name is that of the last descriptor with that name, ignoring case, and none without one. */
  lemma {:induction false} AdapterTableLookup(descriptors: seq<PropertyDescriptor>, name: string)
    ensures Lookup(AdapterTable(descriptors), name)
      == match LastMatch(descriptors, name) case None => None case Some(d) => Some(AdapterOf(d))
    decreases |descriptors|
  {
    if descriptors != [] {
      var d := descriptors[|descriptors| - 1];
      var init := descriptors[..|descriptors| - 1];
      AdapterTableLookup(init, name);
      if d.propertyType.Some? {
        LookupPut(AdapterTable(init), AdapterOf(d), name);
      }
    }
  }

  /** Each key of the table is the name of a descriptor that is not indexed. */
  lemma {:induction false} AdapterTableKeysNamed(descriptors: seq<PropertyDescriptor>)
    ensures forall k :: k in Keys(AdapterTable(descriptors)) ==>
      exists d :: d in descriptors && d.propertyType.Some? && d.name == k
    decreases |descriptors|
  {
    if descriptors != [] {
      var d := descriptors[|descriptors| - 1];
      var init := descriptors[..|descriptors| - 1];
      var table := AdapterTable(init);
      AdapterTableKeysNamed(init);
      assert descriptors == init + [d];
      if d.propertyType.Some? {
        PutKeys(table, AdapterOf(d));
      }
    }
  }

  /** The name of every descriptor that is not indexed is a key of the table, ignoring case. */
  lemma {:induction false} AdapterTableKeysComplete(descriptors: seq<PropertyDescriptor>)
    ensures forall d :: d in descriptors && d.propertyType.Some? ==>
      exists k :: k in Keys(AdapterTable(descriptors)) && EqualsIgnoreCase(k, d.name)
    decreases |descriptors|
  {
    if descriptors != [] {
      var d := descriptors[|descriptors| - 1];
      var init := descriptors[..|descriptors| - 1];
      var table := AdapterTable(init);
      AdapterTableKeysComplete(init);
      assert descriptors == init + [d];
      var r := AdapterTable(descriptors);
      assert r == if d.propertyType.Some? then Put(table, AdapterOf(d)) else table;
      if d.propertyType.Some? {
        PutKeys(table, AdapterOf(d));
      }
      forall e | e in descriptors && e.propertyType.Some?
        ensures exists k :: k in Keys(r) && EqualsIgnoreCase(k, e.name)
      {
        if e == d {
          match FindKey(table, d.name)
          case None =>
            assert Keys(r)[|table|] == d.name;
            assert d.name in Keys(r) && EqualsIgnoreCase(d.name, e.name);
          case Some(i) =>
            assert Keys(r)[i] == table[i].key;
            assert table[i].key in Keys(r) && EqualsIgnoreCase(table[i].key, e.name);
        } else {
          assert e in init;
          var k :| k in Keys(table) && EqualsIgnoreCase(k, e.name);
          assert k in Keys(r);
        }
      }
    }
  }

  /** A put adds the name as a new key, or leaves the keys as they were. */
  lemma PutKeys(table: seq<Entry>, pa: PropertyAdapter)
    requires DistinctKeys(table)
    ensures FindKey(table, pa.name).None? ==> Keys(Put(table, pa)) == Keys(table) + [pa.name]
    ensures FindKey(table, pa.name).Some? ==> Keys(Put(table, pa)) == Keys(table)
  {
  }

  // ---------------------------------------------------------------------
  // Errors

  /** The failures of get and set, each with the exception PropertyAccess throws for it. */
  datatype AccessError =
    | NoSuchProperty(className: string, propertyName: string)
    | ReadNotSupported(className: string, propertyName: string)
    | WriteNotSupported(className: string, propertyName: string)
    | ReadFailure(propertyName: string, bean: string, cause: string)
    | WriteFailure(propertyName: string, bean: string, cause: string)
  {
    function ExceptionType(): string {
      match this
      case NoSuchProperty(_, _) => "java.lang.IllegalArgumentException"
      case ReadNotSupported(_, _) => "java.lang.UnsupportedOperationException"
      case WriteNotSupported(_, _) => "java.lang.UnsupportedOperationException"
      case _ => "java.lang.RuntimeException"
    }

    function Message(): string {
      match this
      case NoSuchProperty(c, p) => "Class " + c + " does not contain a property named '" + p + "'."
      case ReadNotSupported(c, p) =>
        "Class " + c + " does not provide an accessor ('getter') method for property '" + p + "'."
      case WriteNotSupported(c, p) =>
        "Class " + c + " does not provide an mutator ('setter') method for property '" + p + "'."
      case ReadFailure(p, b, cause) => "Error reading property '" + p + "' of " + b + ": " + cause
      case WriteFailure(p, b, cause) => "Error updating property '" + p + "' of " + b + ": " + cause
    }
  }

  // ---------------------------------------------------------------------
  // Reading and updating, as functions of the bean's state

  /** The value behind an accessor; a field never set holds its default, modelled as Null. */
  function ValueOf(values: map<string, Value>, property: string): Value {
    if property in values then values[property] else Null
  }

  /** get(instance, name) through the adapter table of the instance's class. */
  function ReadProperty(table: seq<Entry>, className: string, bean: string, values: map<string, Value>, name: string)
    : Result<Value, AccessError>
  {
    match Lookup(table, name)
    case None => Failure(NoSuchProperty(className, name))
    case Some(pa) =>
      if pa.readMethod.None? then Failure(ReadNotSupported(className, pa.name))
      else if pa.readMethod.value.failure.Some? then Failure(ReadFailure(pa.name, bean, pa.readMethod.value.failure.value))
      else Success(ValueOf(values, pa.name))
  }

  /** set(instance, name, value): the outcome, ... */
  function WriteOutcome(table: seq<Entry>, className: string, bean: string, name: string): Result<(), AccessError> {
    match Lookup(table, name)
    case None => Failure(NoSuchProperty(className, name))
    case Some(pa) =>
      if pa.writeMethod.None? then Failure(WriteNotSupported(className, pa.name))
      else if pa.writeMethod.value.failure.Some? then Failure(WriteFailure(pa.name, bean, pa.writeMethod.value.failure.value))
      else Success(())
  }

  /** ... and the bean's values afterwards: only a successful set changes them. */
  function WriteValues(table: seq<Entry>, values: map<string, Value>, name: string, value: Value): map<string, Value> {
    match Lookup(table, name)
    case None => values
    case Some(pa) =>
      if pa.writeMethod.Some? && pa.writeMethod.value.failure.None? then values[pa.name := value] else values
  }

  /** A property name is found exactly when some descriptor, not indexed, has it ignoring case. */
  lemma NoSuchPropertyExactly(descriptors: seq<PropertyDescriptor>, className: string, bean: string,
                              values: map<string, Value>, name: string)
    ensures ReadProperty(AdapterTable(descriptors), className, bean, values, name) == Failure(NoSuchProperty(className, name))
      <==> forall d :: d in descriptors && d.propertyType.Some? ==> !EqualsIgnoreCase(d.name, name)
    ensures WriteOutcome(AdapterTable(descriptors), className, bean, name) == Failure(NoSuchProperty(className, name))
      <==> forall d :: d in descriptors && d.propertyType.Some? ==> !EqualsIgnoreCase(d.name, name)
  {
    AdapterTableLookup(descriptors, name);
    LastMatchExists(descriptors, name);
  }

  lemma {:induction false} LastMatchExists(descriptors: seq<PropertyDescriptor>, name: string)
    ensures LastMatch(descriptors, name).None?
      <==> forall d :: d in descriptors && d.propertyType.Some? ==> !EqualsIgnoreCase(d.name, name)
    ensures LastMatch(descriptors, name).Some? ==>
      var d := LastMatch(descriptors, name).value;
      d in descriptors && d.propertyType.Some? && EqualsIgnoreCase(d.name, name)
    decreases |descriptors|
  {
    if descriptors != [] {
      var init := descriptors[..|descriptors| - 1];
      LastMatchExists(init, name);
      assert descriptors == init + [descriptors[|descriptors| - 1]];
    }
  }

  /**
   * The errors of get and set, from the descriptor the name resolves to: no
   * getter or no setter is an unsupported operation naming the property as
   * the class declares it; an accessor that throws is reported with the
   * bean and the cause.
   */
  lemma AccessErrorsFromDescriptor(descriptors: seq<PropertyDescriptor>, className: string, bean: string,
                                   values: map<string, Value>, name: string, d: PropertyDescriptor)
    requires LastMatch(descriptors, name) == Some(d)
    ensures d.readMethod.None? ==>
      ReadProperty(AdapterTable(descriptors), className, bean, values, name) == Failure(ReadNotSupported(className, d.name))
    ensures d.writeMethod.None? ==>
      WriteOutcome(AdapterTable(descriptors), className, bean, name) == Failure(WriteNotSupported(className, d.name))
    ensures d.readMethod.Some? && d.readMethod.value.failure.Some? ==>
      ReadProperty(AdapterTable(descriptors), className, bean, values, name)
      == Failure(ReadFailure(d.name, bean, d.readMethod.value.failure.value))
    ensures d.writeMethod.Some? && d.writeMethod.value.failure.Some? ==>
      WriteOutcome(AdapterTable(descriptors), className, bean, name)
      == Failure(WriteFailure(d.name, bean, d.writeMethod.value.failure.value))
    ensures d.readMethod.Some? && d.readMethod.value.failure.None? ==>
      ReadProperty(AdapterTable(descriptors), className, bean, values, name) == Success(ValueOf(values, d.name))
  {
    AdapterTableLookup(descriptors, name);
  }

  /** A set that fails leaves the bean as it was; one that succeeds changes exactly the property it resolved to. */
  lemma FailedSetChangesNothing(table: seq<Entry>, className: string, bean: string, values: map<string, Value>,
                                name: string, value: Value)
    ensures WriteOutcome(table, className, bean, name).Failure? ==> WriteValues(table, values, name, value) == values
    ensures WriteOutcome(table, className, bean, name).Success? ==>
      Lookup(table, name).Some? && WriteValues(table, values, name, value) == values[Lookup(table, name).value.name := value]
  {
  }

  /**
   * Reading and writing ignore the case of the name: any spelling reaches
   * the same property with the same outcome.
   */
  lemma AccessIgnoresCase(table: seq<Entry>, className: string, bean: string, values: map<string, Value>,
                          name1: string, name2: string, value: Value)
    requires EqualsIgnoreCase(name1, name2)
    ensures Lookup(table, name1) == Lookup(table, name2)
    ensures ReadProperty(table, className, bean, values, name1).Success?
      ==> ReadProperty(table, className, bean, values, name1) == ReadProperty(table, className, bean, values, name2)
    ensures WriteValues(table, values, name1, value) == WriteValues(table, values, name2, value)
  {
    FindKeyIgnoresCase(table, name1, name2);
  }

  lemma {:induction false} FindKeyIgnoresCase(table: seq<Entry>, name1: string, name2: string)
    requires EqualsIgnoreCase(name1, name2)
    ensures FindKey(table, name1) == FindKey(table, name2)
    decreases |table|
  {
    if table != [] {
      FindKeyIgnoresCase(table[..|table| - 1], name1, name2);
    }
  }

  /**
   * A set that succeeds is seen by every later get of a readable property
   * that does not throw, whichever spelling of the name either uses.
   */
  lemma SetThenGet(table: seq<Entry>, className: string, bean: string, values: map<string, Value>,
                   setName: string, getName: string, value: Value)
    requires WriteOutcome(table, className, bean, setName).Success?
    requires EqualsIgnoreCase(setName, getName)
    requires Lookup(table, getName).Some? && Lookup(table, getName).value.readMethod.Some?
    requires Lookup(table, getName).value.readMethod.value.failure.None?
    ensures ReadProperty(table, className, bean, WriteValues(table, values, setName, value), getName) == Success(value)
  {
    FindKeyIgnoresCase(table, setName, getName);
  }

  // ---------------------------------------------------------------------
  // Beans, adapters and the access service

  /** A bean instance: its class, its toString(), and the values behind its accessors, by property name. */
  class Bean {
    const beanType: BeanType
    const description: string
    var values: map<string, Value>

    constructor (beanType: BeanType, description: string)
      ensures this.beanType == beanType && this.description == description && values == map[]
    {
      this.beanType := beanType;
      this.description := description;
      values := map[];
    }
  }

  /** ClassPropertyAdapter: the adapters of one class. */
  class ClassPropertyAdapter {
    const beanType: BeanType
    const table: seq<Entry>

    /** Puts an adapter for each descriptor that is not indexed, in order. */
    constructor (beanType: BeanType, descriptors: seq<PropertyDescriptor>)
      ensures this.beanType == beanType && table == AdapterTable(descriptors)
    {
      var adapters: seq<Entry> := [];
      for i := 0 to |descriptors|
        invariant adapters == AdapterTable(descriptors[..i])
      {
        var d := descriptors[i];
        assert descriptors[..i + 1][..i] == descriptors[..i];
        if d.propertyType.Some? {
          adapters := Put(adapters, AdapterOf(d));
        }
      }
      assert descriptors[..|descriptors|] == descriptors;
      this.beanType := beanType;
      table := adapters;
    }

    /** getPropertyAdapter: the adapter for the name, ignoring case; None for an unknown name. */
    function GetPropertyAdapter(name: string): Option<PropertyAdapter> {
      Lookup(table, name)
    }

    /** getPropertyNames: the names of the properties, sorted. */
    function GetPropertyNames(): (names: seq<string>)
      ensures Sorted(names) && multiset(names) == multiset(Keys(table))
    {
      Sort(Keys(table))
    }

    function Get(instance: Bean, name: string): Result<Value, AccessError>
      reads instance
    {
      ReadProperty(table, beanType.className, instance.description, instance.values, name)
    }

    method Set(instance: Bean, name: string, value: Value) returns (r: Result<(), AccessError>)
      modifies instance
      ensures r == WriteOutcome(table, beanType.className, instance.description, name)
      ensures instance.values == WriteValues(table, old(instance.values), name, value)
    {
      var pa := GetPropertyAdapter(name);
      if pa.None? {
        return Failure(NoSuchProperty(beanType.className, name));
      }
      var adapter := pa.value;
      if adapter.writeMethod.None? {
        return Failure(WriteNotSupported(beanType.className, adapter.name));
      }
      if adapter.writeMethod.value.failure.Some? {
        return Failure(WriteFailure(adapter.name, instance.description, adapter.writeMethod.value.failure.value));
      }
      instance.values := instance.values[adapter.name := value];
      r := Success(());
    }
  }

  /**
   * The property names of a class: sorted, one per property ignoring case,
   * each the name of a descriptor that is not indexed, and every descriptor
   * that is not indexed named among them, ignoring case.
   */
  lemma PropertyNames(adapter: ClassPropertyAdapter, descriptors: seq<PropertyDescriptor>)
    requires adapter.table == AdapterTable(descriptors)
    ensures Sorted(adapter.GetPropertyNames())
    ensures forall n :: n in adapter.GetPropertyNames() ==>
      exists d :: d in descriptors && d.propertyType.Some? && d.name == n
    ensures forall d :: d in descriptors && d.propertyType.Some? ==>
      exists n :: n in adapter.GetPropertyNames() && EqualsIgnoreCase(n, d.name)
    ensures forall i, j :: 0 <= i < j < |adapter.GetPropertyNames()| ==>
      !EqualsIgnoreCase(adapter.GetPropertyNames()[i], adapter.GetPropertyNames()[j])
  {
    var names := adapter.GetPropertyNames();
    var keys := Keys(adapter.table);
    AdapterTableKeysNamed(descriptors);
    AdapterTableKeysComplete(descriptors);
    assert forall a, b :: 0 <= a < b < |keys| ==> !EqualsIgnoreCase(keys[a], keys[b]) by {
      assert DistinctKeys(adapter.table);
    }
    PermutationKeepsElements(keys, names);
    PermutationKeepsDistinct(keys, names);
  }

  /**
   * getPropertyAdapter and get on an adapter built from the descriptors: the
   * adapter of the last matching descriptor, ignoring case, or none; get
   * reports an unknown name and otherwise reads the resolved property.
   */
  lemma ClassAdapterQueries(adapter: ClassPropertyAdapter, descriptors: seq<PropertyDescriptor>, instance: Bean, name: string)
    requires adapter.table == AdapterTable(descriptors)
    ensures adapter.GetPropertyAdapter(name).None?
      <==> forall d :: d in descriptors && d.propertyType.Some? ==> !EqualsIgnoreCase(d.name, name)
    ensures adapter.GetPropertyAdapter(name).None? ==>
      adapter.Get(instance, name) == Failure(NoSuchProperty(adapter.beanType.className, name))
    ensures forall d :: LastMatch(descriptors, name) == Some(d) ==>
      adapter.GetPropertyAdapter(name) == Some(AdapterOf(d))
      && (d.readMethod.Some? && d.readMethod.value.failure.None? ==>
            adapter.Get(instance, name) == Success(ValueOf(instance.values, d.name)))
  {
    AdapterTableLookup(descriptors, name);
    LastMatchExists(descriptors, name);
  }

  lemma PermutationKeepsElements(keys: seq<string>, names: seq<string>)
    requires multiset(names) == multiset(keys)
    ensures forall n :: n in names <==> n in keys
  {
    forall n
      ensures n in names <==> n in keys
    {
      assert n in names <==> n in multiset(names);
      assert n in keys <==> n in multiset(keys);
    }
  }

  /** A permutation of keys distinct ignoring case is distinct ignoring case. */
  lemma PermutationKeepsDistinct(keys: seq<string>, names: seq<string>)
    requires forall a, b :: 0 <= a < b < |keys| ==> !EqualsIgnoreCase(keys[a], keys[b])
    requires multiset(names) == multiset(keys)
    ensures forall i, j :: 0 <= i < j < |names| ==> !EqualsIgnoreCase(names[i], names[j])
  {
    forall i, j | 0 <= i < j < |names|
      ensures !EqualsIgnoreCase(names[i], names[j])
    {
      DistinctAfterSort(keys, names, i, j);
    }
  }

  /** A permutation of keys distinct ignoring case has them distinct too, at any two positions. */
  lemma DistinctAfterSort(keys: seq<string>, names: seq<string>, i: int, j: int)
    requires forall a, b :: 0 <= a < b < |keys| ==> !EqualsIgnoreCase(keys[a], keys[b])
    requires multiset(names) == multiset(keys)
    requires 0 <= i < j < |names|
    ensures !EqualsIgnoreCase(names[i], names[j])
  {
    assert names[i] in multiset(keys) && names[j] in multiset(keys);
    var a :| 0 <= a < |keys| && keys[a] == names[i];
    var b :| 0 <= b < |keys| && keys[b] == names[j];
    if a == b {
      assert names == names[..i] + [names[i]] + names[i + 1..j] + [names[j]] + names[j + 1..];
      assert multiset(names)[names[i]] >= 2;
      MultisetAtMostOnce(keys, a);
      assert false;
    } else if a > b {
      assert !EqualsIgnoreCase(keys[b], keys[a]);
    }
  }

  /** In keys distinct ignoring case, each key occurs once. */
  lemma MultisetAtMostOnce(keys: seq<string>, a: int)
    requires forall x, y :: 0 <= x < y < |keys| ==> !EqualsIgnoreCase(keys[x], keys[y])
    requires 0 <= a < |keys|
    ensures multiset(keys)[keys[a]] == 1
  {
    assert keys == keys[..a] + [keys[a]] + keys[a + 1..];
    forall x | 0 <= x < a
      ensures keys[..a][x] != keys[a]
    {
      assert !EqualsIgnoreCase(keys[x], keys[a]);
    }
    var rest := keys[a + 1..];
    forall y | 0 <= y < |rest|
      ensures rest[y] != keys[a]
    {
      assert rest[y] == keys[a + 1 + y];
      assert !EqualsIgnoreCase(keys[a], keys[a + 1 + y]);
    }
    assert keys[a] !in multiset(keys[..a]);
    assert keys[a] !in multiset(keys[a + 1..]);
  }

  /** PropertyAccessImpl: adapters built on demand and cached per class. */
  class PropertyAccessImpl {
    var cache: map<BeanType, ClassPropertyAdapter>

    /** Every cached adapter is the adapter of its class. */
    ghost predicate Valid()
      reads this
    {
      forall t :: t in cache ==> cache[t].beanType == t && cache[t].table == AdapterTable(Descriptors(t))
    }

    constructor ()
      ensures Valid() && cache == map[]
    {
      cache := map[];
    }

    /** getAdapter: the cached adapter of the class, or a new one, which is cached. */
    method GetAdapter(forClass: BeanType) returns (adapter: ClassPropertyAdapter)
      requires Valid()
      modifies this
      ensures Valid()
      ensures adapter.beanType == forClass && adapter.table == AdapterTable(Descriptors(forClass))
      ensures forClass in old(cache) ==> adapter == old(cache[forClass]) && cache == old(cache)
      ensures forClass !in old(cache) ==> fresh(adapter) && cache == old(cache)[forClass := adapter]
    {
      if forClass in cache {
        return cache[forClass];
      }
      adapter := BuildAdapter(forClass);
      cache := cache[forClass := adapter];
    }

    /** clearCache: forgets every adapter. */
    method ClearCache()
      modifies this
      ensures Valid() && cache == map[]
    {
      cache := map[];
    }

    /**
     * buildAdapter: the class's own descriptors and, for an interface, those
     * of the interfaces it extends, taken from a queue.
     */
    static method BuildAdapter(forClass: BeanType) returns (adapter: ClassPropertyAdapter)
      ensures fresh(adapter)
      ensures adapter.beanType == forClass && adapter.table == AdapterTable(Descriptors(forClass))
    {
      var descriptors := forClass.declared;
      if forClass.isInterface {
        var queue := forClass.superInterfaces;
        while queue != []
          invariant descriptors + QueueDescriptors(queue) == Descriptors(forClass)
          decreases SizeAll(queue)
        {
          var c := queue[0];
          SizeAllAppend(queue[1..], c.superInterfaces);
          assert SizeAll(queue) == 1 + SizeAll(c.superInterfaces) + SizeAll(queue[1..]);
          assert QueueDescriptors(queue) == c.declared + QueueDescriptors(queue[1..] + c.superInterfaces);
          descriptors := descriptors + c.declared;
          queue := queue[1..] + c.superInterfaces;
        }
        assert descriptors + [] == descriptors;
      } else {
        assert descriptors + [] == descriptors;
      }
      adapter := new ClassPropertyAdapter(forClass, descriptors);
    }

    /** get: reads the named property of the instance. */
    method Get(instance: Bean, name: string) returns (r: Result<Value, AccessError>)
      requires Valid()
      modifies this
      ensures Valid()
      ensures r == ReadProperty(AdapterTable(Descriptors(instance.beanType)), instance.beanType.className,
                                instance.description, instance.values, name)
      ensures instance.beanType in old(cache) ==> cache == old(cache)
      ensures instance.beanType !in old(cache) ==>
        instance.beanType in cache && cache == old(cache)[instance.beanType := cache[instance.beanType]]
    {
      var adapter := GetAdapter(instance.beanType);
      r := adapter.Get(instance, name);
    }

    /** set: updates the named property of the instance. */
    method Set(instance: Bean, name: string, value: Value) returns (r: Result<(), AccessError>)
      requires Valid()
      modifies this, instance
      ensures Valid()
      ensures r == WriteOutcome(AdapterTable(Descriptors(instance.beanType)), instance.beanType.className,
                                instance.description, name)
      ensures instance.values == WriteValues(AdapterTable(Descriptors(instance.beanType)), old(instance.values), name, value)
      ensures instance.beanType in old(cache) ==> cache == old(cache)
      ensures instance.beanType !in old(cache) ==>
        instance.beanType in cache && cache == old(cache)[instance.beanType := cache[instance.beanType]]
    {
      var adapter := GetAdapter(instance.beanType);
      r := adapter.Set(instance, name, value);
    }
  }

  /** clear_wipes_internal_cache: the same adapter twice, then a new one after clearCache. */
  method ClearWipesInternalCache(beanType: BeanType)
    returns (first: ClassPropertyAdapter, second: ClassPropertyAdapter, third: ClassPropertyAdapter)
    ensures first.beanType == beanType
    ensures second == first
    ensures third != first && third.beanType == beanType
  {
    var access := new PropertyAccessImpl();
    first := access.GetAdapter(beanType);
    second := access.GetAdapter(beanType);
    access.ClearCache();
    third := access.GetAdapter(beanType);
  }
}
