/** Item components: behaviour attached to an item stack under a component
    identifier. Constructing a component binds it to its stack and files it
    in the stack's component map; cloning builds a component of the same
    class on another stack and copies every own property except the stack
    back-reference. A registry maps each item type to the component classes
    to attach to its stacks, and records every bound class by identifier. */
module ItemComponents {
  import opened Common

  /** A property value as the clone copies it: plain values, and references
      to objects, which the copy shares rather than duplicates. */
  datatype Value = Str(s: string) | Num(n: int) | Flag(b: bool) | Ref(address: nat)

  /** An item type as the item catalogue returns it. */
  datatype ItemType = ItemType(identifier: string)

  /** A component class: its name, its static component `identifier`, and
      its static list of item identifiers it binds to (`types`). */
  datatype ComponentClass = ComponentClass(name: string, identifier: string, types: seq<string>)

  /** The `?? []` of `registry.get(id) ?? []`. */
  function Lookup(registry: map<string, seq<ComponentClass>>, id: string): seq<ComponentClass> {
    if id in registry then registry[id] else []
  }

  /** The registry after `register`: the class appended to its item type's
      list, which starts empty for an unseen type; no deduplication. */
  function WithRegistration(registry: map<string, seq<ComponentClass>>, id: string, cls: ComponentClass)
    : (r: map<string, seq<ComponentClass>>)
    ensures r.Keys == registry.Keys + {id}
    ensures r[id] == Lookup(registry, id) + [cls]
    ensures id !in registry ==> r[id] == [cls]
    ensures forall k :: k in registry && k != id ==> r[k] == registry[k]
  {
    registry[id := Lookup(registry, id) + [cls]]
  }

  /** The registry after `bind`'s loop over the given identifiers: each one
      the catalogue resolves registers the class under the resolved type;
      the others are skipped. */
  function BindAll(registry: map<string, seq<ComponentClass>>, cls: ComponentClass, ids: seq<string>,
                   catalogue: map<string, ItemType>): map<string, seq<ComponentClass>>
    decreases |ids|
  {
    if ids == [] then registry
    else
      var next := if ids[0] in catalogue
                  then WithRegistration(registry, catalogue[ids[0]].identifier, cls)
                  else registry;
      BindAll(next, cls, ids[1..], catalogue)
  }

  /** How many of the identifiers resolve to an item type with identifier `t`. */
  function Resolving(ids: seq<string>, catalogue: map<string, ItemType>, t: string): nat {
    if ids == [] then 0
    else
      var here := if ids[0] in catalogue && catalogue[ids[0]].identifier == t then 1 else 0;
      here + Resolving(ids[1..], catalogue, t)
  }

  /** The item types the identifiers resolve to. */
  function ResolvedTypes(ids: seq<string>, catalogue: map<string, ItemType>): set<string> {
    set id | id in ids && id in catalogue :: catalogue[id].identifier
  }

  /** `n` copies of `cls`. */
  function Repeat(cls: ComponentClass, n: nat): (r: seq<ComponentClass>)
    ensures |r| == n && forall i :: 0 <= i < n ==> r[i] == cls
  {
    if n == 0 then [] else [cls] + Repeat(cls, n - 1)
  }

  /** Registering the same class twice under one type lists it twice. */
  lemma RegisterTwiceKeepsBoth(registry: map<string, seq<ComponentClass>>, id: string, cls: ComponentClass)
    ensures WithRegistration(WithRegistration(registry, id, cls), id, cls)[id] == Lookup(registry, id) + [cls, cls]
  {
  }

  /** After `bind`, each item type's list is its old list followed by one
      copy of the class for every identifier that resolved to that type. */
  lemma {:induction false} BindAllLookup(registry: map<string, seq<ComponentClass>>, cls: ComponentClass,
                                         ids: seq<string>, catalogue: map<string, ItemType>, t: string)
    ensures Lookup(BindAll(registry, cls, ids, catalogue), t)
         == Lookup(registry, t) + Repeat(cls, Resolving(ids, catalogue, t))
    decreases |ids|
  {
    if ids != [] {
      var next := if ids[0] in catalogue
                  then WithRegistration(registry, catalogue[ids[0]].identifier, cls)
                  else registry;
      BindAllLookup(next, cls, ids[1..], catalogue, t);
      if ids[0] in catalogue && catalogue[ids[0]].identifier == t {
        var n := Resolving(ids[1..], catalogue, t);
        assert Lookup(next, t) == Lookup(registry, t) + [cls];
        assert Repeat(cls, n + 1) == [cls] + Repeat(cls, n);
        assert Lookup(registry, t) + [cls] + Repeat(cls, n) == Lookup(registry, t) + ([cls] + Repeat(cls, n));
      } else {
        assert Lookup(next, t) == Lookup(registry, t);
      }
    }
  }

  /** `bind` adds exactly the resolved item types to the registry's keys. */
  lemma {:induction false} BindAllKeys(registry: map<string, seq<ComponentClass>>, cls: ComponentClass,
                                       ids: seq<string>, catalogue: map<string, ItemType>)
    ensures BindAll(registry, cls, ids, catalogue).Keys == registry.Keys + ResolvedTypes(ids, catalogue)
    decreases |ids|
  {
    if ids != [] {
      var next := if ids[0] in catalogue
                  then WithRegistration(registry, catalogue[ids[0]].identifier, cls)
                  else registry;
      BindAllKeys(next, cls, ids[1..], catalogue);
      assert ids == [ids[0]] + ids[1..];
      assert ResolvedTypes(ids, catalogue)
          == ResolvedTypes(ids[1..], catalogue)
           + (if ids[0] in catalogue then {catalogue[ids[0]].identifier} else {});
    }
  }

  /** An item stack: its item type and the components filed under their
      identifiers. */
  class ItemStack {
    const itemType: string
    var components: map<string, ItemComponent>

    constructor (itemType: string)
      ensures this.itemType == itemType && components == map[]
    {
      this.itemType := itemType;
      components := map[];
    }
  }

  /** An item component. `keys` lists its own enumerable properties in the
      order `Object.entries` yields them: `identifier` and `item` first (set
      by the constructors), then those its class adds. `props` holds the
      value of each of them except `item`, which is the field `item`. */
  class ItemComponent {
    const cls: ComponentClass
    const identifier: string
    var item: ItemStack
    var keys: seq<string>
    var props: map<string, Value>

    ghost predicate Valid()
      reads this
    {
      && |keys| >= 2 && keys[0] == "identifier" && keys[1] == "item"
      && Distinct(keys)
      && (forall k :: k in props <==> k in keys && k != "item")
      && props["identifier"] == Str(identifier)
    }

    /** The constructor binds the component to `item` and files it in the
        stack's component map under its identifier, replacing any component
        filed there before. */
    constructor (cls: ComponentClass, item: ItemStack, identifier: string)
      modifies item
      ensures Valid()
      ensures this.cls == cls && this.identifier == identifier && this.item == item
      ensures keys == ["identifier", "item"] && props == map["identifier" := Str(identifier)]
      ensures item.components == old(item.components)[identifier := this]
    {
      this.cls := cls;
      this.identifier := identifier;
      this.item := item;
      keys := ["identifier", "item"];
      props := map["identifier" := Str(identifier)];
      new;
      item.components := item.components[identifier := this];
    }

    /** `clone`: a new component of the same class, bound to `newItem` (and
        filed in its component map by the constructor), whose properties
        other than `item` are those of this component, in the same order.
        The copy is shallow: references are shared. This component is left
        as it was, still bound to its own stack. */
    method Clone(newItem: ItemStack) returns (c: ItemComponent)
      requires Valid()
      modifies newItem
      ensures fresh(c) && c.Valid()
      ensures c.cls == cls && c.identifier == identifier && c.item == newItem
      ensures c.keys == keys && c.props == props
      ensures newItem.components == old(newItem.components)[identifier := c]
      ensures item == old(item) && keys == old(keys) && props == old(props)
    {
      c := new ItemComponent(cls, newItem, identifier);
      var i := 0;
      while i < |keys|
        invariant 0 <= i <= |keys|
        invariant c.cls == cls && c.identifier == identifier && c.item == newItem
        invariant c.keys == keys[..if i < 2 then 2 else i]
        invariant c.props == map k | k in keys[..if i < 2 then 2 else i] && k != "item" :: props[k]
        invariant newItem.components == old(newItem.components)[identifier := c]
      {
        var key := keys[i];
        if key == "item" {
          i := i + 1;
          continue;
        }
        // `component[key] = value`: a new property goes to the end of the
        // enumeration order, an existing one keeps its place.
        if key !in c.props {
          c.keys := c.keys + [key];
        }
        c.props := c.props[key := props[key]];
        i := i + 1;
      }
      assert keys[..|keys|] == keys;
    }
  }

  /** The static registries of item components, held as one object. */
  class ComponentRegistry {
    /** Item type identifier to the component classes registered for it. */
    var registry: map<string, seq<ComponentClass>>
    /** Component identifier to the class bound under it. */
    var components: map<string, ComponentClass>

    constructor ()
      ensures registry == map[] && components == map[]
    {
      registry := map[];
      components := map[];
    }

    /** `register`: the class is appended to the item type's list. */
    method Register(cls: ComponentClass, itemType: ItemType)
      modifies this`registry
      ensures registry == WithRegistration(old(registry), itemType.identifier, cls)
    {
      var list := Lookup(registry, itemType.identifier);
      list := list + [cls];
      registry := registry[itemType.identifier := list];
    }

    /** `bind`: the class is registered for every identifier in its `types`
        that the catalogue resolves, in order, then recorded under its
        component identifier. */
    method Bind(cls: ComponentClass, catalogue: map<string, ItemType>)
      modifies this
      ensures registry == BindAll(old(registry), cls, cls.types, catalogue)
      ensures components == old(components)[cls.identifier := cls]
    {
      var i := 0;
      while i < |cls.types|
        invariant 0 <= i <= |cls.types|
        invariant components == old(components)
        invariant BindAll(registry, cls, cls.types[i..], catalogue) == BindAll(old(registry), cls, cls.types, catalogue)
      {
        var id := cls.types[i];
        assert cls.types[i..][1..] == cls.types[i + 1..];
        if id in catalogue {
          Register(cls, catalogue[id]);
        }
        i := i + 1;
      }
      components := components[cls.identifier := cls];
    }
  }
}
