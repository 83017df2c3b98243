/**
 * The non-reflective logic of the bean utility: how accessor names are derived
 * from field names, which declared fields `getFieldList` keeps and in what
 * order, and the guards and superclass walks of `invokeGetMethod` and
 * `invokeSetMethod`. Java reflection itself is replaced by abstract values: a
 * class is the list of its declared fields, or the set of its declared field
 * names with the outcome of invoking each public method by name.
 */
module BeanUtil {
  import opened Wrappers

  // ---------------------------------------------------------------------------
  // Accessor names

  /** `Character.isUpperCase`, for the letters A to Z. */
  function IsUpperCase(c: char): (r: bool)
    ensures r ==> !('a' <= c <= 'z')
  {
    'A' <= c <= 'Z'
  }

  /** `toUpperCase(Locale.ENGLISH)` of one character, for the letters a to z. */
  function ToUpperCase(c: char): (u: char)
    ensures IsUpperCase(u) || u == c
    ensures 'a' <= c <= 'z' ==> IsUpperCase(u) && u as int == c as int - 32
    ensures !('a' <= c <= 'z') ==> u == c
  {
    if 'a' <= c <= 'z' then (c as int - 32) as char else c
  }

  function ToLowerCase(c: char): (l: char)
    ensures IsUpperCase(c) ==> l as int == c as int + 32
    ensures !IsUpperCase(c) ==> l == c
  {
    if IsUpperCase(c) then (c as int + 32) as char else c
  }

  /** Whether the rule keeps the field name as it is: its second character is upper case. */
  function KeepsCase(fieldName: string): (r: bool)
    ensures r ==> |fieldName| >= 2
    ensures |fieldName| >= 2 && 'a' <= fieldName[1] <= 'z' ==> !r
  {
    |fieldName| >= 2 && IsUpperCase(fieldName[1])
  }

  /**
   * The accessor name built by `getGetMethod` (prefix "get") and `getSetMethod`
   * (prefix "set"); None when `substring(0, 1)` throws on an empty name.
   */
  function AccessorName(prefix: string, fieldName: string): (r: Option<string>)
    ensures r.None? <==> fieldName == []
    ensures r.Some? ==>
              && |r.value| == |prefix| + |fieldName|
              && r.value[..|prefix|] == prefix
              && r.value[|prefix| + 1..] == fieldName[1..]
    ensures r.Some? && KeepsCase(fieldName) ==> r.value[|prefix|] == fieldName[0]
    ensures r.Some? && !KeepsCase(fieldName) ==> r.value[|prefix|] == ToUpperCase(fieldName[0])
  {
    if fieldName == [] then None
    else
      var newFieldName := prefix + [ToUpperCase(fieldName[0])] + fieldName[1..];
      if KeepsCase(fieldName) then Some(prefix + fieldName) else Some(newFieldName)
  }

  /**
   * `java.beans.Introspector.decapitalize`, the standard way back from an
   * accessor suffix to a property name, used as the reference for the rule.
   */
  function Decapitalize(name: string): string {
    if name == [] then name
    else if |name| > 1 && IsUpperCase(name[1]) && IsUpperCase(name[0]) then name
    else [ToLowerCase(name[0])] + name[1..]
  }

  /**
   * The accessor name leads back to the field name exactly when the field name
   * does not start with an upper-case letter followed by a character that is not
   * upper case (so "name" and "xCoord" and "URL" round-trip, "Name" does not).
   */
  lemma AccessorRoundTrip(prefix: string, fieldName: string)
    requires fieldName != []
    ensures Decapitalize(AccessorName(prefix, fieldName).value[|prefix|..]) == fieldName
            <==> !(IsUpperCase(fieldName[0]) && !KeepsCase(fieldName))
  {
    var suffix := AccessorName(prefix, fieldName).value[|prefix|..];
    assert suffix == [suffix[0]] + fieldName[1..];
    if KeepsCase(fieldName) {
      assert suffix == fieldName;
    } else {
      assert Decapitalize(suffix) == [ToLowerCase(ToUpperCase(fieldName[0]))] + fieldName[1..];
      if IsUpperCase(fieldName[0]) {
        assert Decapitalize(suffix)[0] != fieldName[0];
      }
    }
  }

  /** Getter and setter names differ only in their prefix. */
  lemma GetterSetterAgree(fieldName: string)
    requires fieldName != []
    ensures AccessorName("get", fieldName).value[3..] == AccessorName("set", fieldName).value[3..]
  {
    var g, s := AccessorName("get", fieldName).value, AccessorName("set", fieldName).value;
    assert g[3..] == [g[3]] + fieldName[1..];
    assert s[3..] == [s[3]] + fieldName[1..];
  }

  // ---------------------------------------------------------------------------
  // getFieldList

  /** A declared field as reflection shows it; the annotations are flags. */
  datatype FieldInfo = FieldInfo(
    name: Option<string>,
    fieldIgnore: bool,
    fieldAlias: Option<string>,   // value of a FieldAlias annotation, if present
    fieldKeyId: bool,
    fieldUnique: bool)

  /** A `FieldBean`; `alias` is None where `getFieldList` does not set it. */
  datatype FieldBean = FieldBean(original: string, alias: Option<string>, keyId: bool, unique: bool)

  /** The declared fields of one class, in declaration order; a null entry is None. */
  type DeclaredFields = seq<Option<FieldInfo>>

  /** The name test of `getFieldList`. */
  function AdmittedName(name: string): (r: bool)
    ensures r ==> name != "TAG" && name != "serialVersionUID"
    ensures '$' in name ==> !r
  {
    name != "TAG" && name != "serialVersionUID" && '$' !in name
  }

  function Kept(f: FieldInfo): (r: bool)
    ensures f.fieldIgnore ==> !r
    ensures r ==> AdmittedName(f.name.GetOr(""))
  {
    AdmittedName(f.name.GetOr("")) && !f.fieldIgnore
  }

  function BeanOf(f: FieldInfo): (b: FieldBean)
    ensures b.original == f.name.GetOr("") && b.alias == f.fieldAlias
    ensures b.keyId == f.fieldKeyId && b.unique == f.fieldUnique
  {
    // a non-empty alias is taken as it is and an empty one becomes "", i.e. the value is copied
    FieldBean(f.name.GetOr(""), f.fieldAlias, f.fieldKeyId, f.fieldUnique)
  }

  /** The beans one class contributes, in declaration order. */
  function KeptOf(fields: DeclaredFields): (r: seq<FieldBean>)
    ensures |r| <= |fields|
    decreases |fields|
  {
    if fields == [] then []
    else
      var last := fields[|fields| - 1];
      KeptOf(fields[..|fields| - 1]) + (if last.Some? && Kept(last.value) then [BeanOf(last.value)] else [])
  }

  /** The beans of a class chain (the class first, then each superclass). */
  function FieldList(chain: seq<DeclaredFields>): (r: seq<FieldBean>)
    ensures chain == [] ==> r == []
    ensures |chain| == 1 ==> r == KeptOf(chain[0])
    decreases |chain|
  {
    if chain == [] then [] else FieldList(chain[..|chain| - 1]) + KeptOf(chain[|chain| - 1])
  }

  /** A bean comes from a class exactly when that class declares a kept field it describes. */
  lemma {:induction false} KeptOfMembers(fields: DeclaredFields, b: FieldBean)
    ensures b in KeptOf(fields) <==> exists i :: 0 <= i < |fields| && fields[i].Some? && Kept(fields[i].value) && BeanOf(fields[i].value) == b
    decreases |fields|
  {
    if fields != [] {
      var init := fields[..|fields| - 1];
      KeptOfMembers(init, b);
      assert forall i :: 0 <= i < |init| ==> init[i] == fields[i];
    }
  }

  /**
   * Every bean has an admitted name and comes from one class of the chain, where
   * (by `KeptOfMembers`) it describes a declared field that is kept.
   */
  lemma {:induction false} FieldListAdmitted(chain: seq<DeclaredFields>)
    ensures forall b :: b in FieldList(chain) ==> AdmittedName(b.original)
    ensures forall b :: b in FieldList(chain) ==> exists c :: 0 <= c < |chain| && b in KeptOf(chain[c])
    decreases |chain|
  {
    if chain != [] {
      var init, last := chain[..|chain| - 1], chain[|chain| - 1];
      FieldListAdmitted(init);
      assert forall c :: 0 <= c < |init| ==> init[c] == chain[c];
      forall b | b in KeptOf(last) ensures AdmittedName(b.original) {
        KeptOfMembers(last, b);
      }
    }
  }

  /** The class's own fields come first, then those of its superclasses. */
  lemma {:induction false} OwnFieldsFirst(own: DeclaredFields, supers: seq<DeclaredFields>)
    ensures FieldList([own] + supers) == KeptOf(own) + FieldList(supers)
    decreases |supers|
  {
    if supers == [] {
      assert [own][..0] == [];
    } else {
      var init, last := supers[..|supers| - 1], supers[|supers| - 1];
      var whole := [own] + supers;
      OwnFieldsFirst(own, init);
      assert whole[..|whole| - 1] == [own] + init;
      assert whole[|whole| - 1] == last;
      assert FieldList(whole) == FieldList([own] + init) + KeptOf(last);
      assert FieldList(supers) == FieldList(init) + KeptOf(last);
    }
  }

  /**
   * `getFieldList`: null for a null class; otherwise, walking from the class up
   * its superclass chain, every declared field that is kept, as a bean.
   */
  method GetFieldList(objectClass: Option<seq<DeclaredFields>>) returns (mList: Option<seq<FieldBean>>)
    ensures objectClass.None? ==> mList.None?
    ensures objectClass.Some? ==> mList == Some(FieldList(objectClass.value))
  {
    if objectClass.None? {
      return None;
    }
    var chain := objectClass.value;
    var list: seq<FieldBean> := [];
    var tempClass := 0;
    while tempClass < |chain|
      invariant 0 <= tempClass <= |chain|
      invariant list == FieldList(chain[..tempClass])
    {
      var fields := chain[tempClass];
      ghost var before := list;
      var i := 0;
      while i < |fields|
        invariant 0 <= i <= |fields|
        invariant list == before + KeptOf(fields[..i])
      {
        var field := fields[i];
        assert fields[..i + 1][..i] == fields[..i];
        if field.Some? {
          var name := field.value.name.GetOr("");
          if name != "TAG" && name != "serialVersionUID" && '$' !in name {
            if !field.value.fieldIgnore {
              list := list + [BeanOf(field.value)];
            }
          }
        }
        i := i + 1;
      }
      assert fields[..i] == fields;
      assert chain[..tempClass + 1][..tempClass] == chain[..tempClass];
      tempClass := tempClass + 1;
    }
    assert chain[..tempClass] == chain;
    return Some(list);
  }

  // ---------------------------------------------------------------------------
  // invokeGetMethod and invokeSetMethod

  /** The outcome of `Method.invoke`: it threw, or it returned a value that may be null. */
  datatype Invocation<V> = Threw | Returned(value: Option<V>)

  /**
   * A class as `getDeclaredField` and `getMethod` see it: the names of its
   * declared fields and, for every public method it has, what invoking it on
   * the object does.
   */
  datatype ReflectedClass<V> = ReflectedClass(declaredFields: set<string>, methods: map<string, Invocation<V>>)

  /** `XCStringUtil.isEmpty`, read as "null or of length 0". */
  function IsEmpty(s: Option<string>): (r: bool)
    ensures s.None? ==> r
    ensures s == Some("") ==> r
    ensures s.Some? && s.value != "" ==> !r
  {
    s.None? || s.value == []
  }

  /** The class at position `i` of the chain; past its end `getSuperclass` gave null. */
  function ClassAt<V>(chain: seq<ReflectedClass<V>>, i: nat): Option<ReflectedClass<V>> {
    if i < |chain| then Some(chain[i]) else None
  }

  /** `getGetMethod`: the getter found, or null when the class is null or has no such method. */
  function GetGetMethod<V>(c: Option<ReflectedClass<V>>, fieldName: string): (m: Option<Invocation<V>>)
    ensures m.Some? <==> c.Some? && fieldName != [] && AccessorName("get", fieldName).value in c.value.methods
    ensures m.Some? ==> m.value == c.value.methods[AccessorName("get", fieldName).value]
  {
    match c
    case None => None
    case Some(cls) =>
      match AccessorName("get", fieldName)
      case None => None
      case Some(n) => if n in cls.methods then Some(cls.methods[n]) else None
  }

  /** `getSetMethod`: as for the getter, and the field must be declared by this very class. */
  function GetSetMethod<V>(c: Option<ReflectedClass<V>>, fieldName: string): (m: Option<Invocation<V>>)
    ensures m.Some? <==>
              && c.Some? && fieldName != [] && fieldName in c.value.declaredFields
              && AccessorName("set", fieldName).value in c.value.methods
    ensures m.Some? ==> m.value == c.value.methods[AccessorName("set", fieldName).value]
  {
    match c
    case None => None
    case Some(cls) =>
      if fieldName !in cls.declaredFields then None
      else
        match AccessorName("set", fieldName)
        case None => None
        case Some(n) => if n in cls.methods then Some(cls.methods[n]) else None
  }

  /** Whether the getter of class `i` was found and returned null, which sends the walk one class up. */
  predicate GetterGaveNull<V>(chain: seq<ReflectedClass<V>>, fieldName: string, i: nat) {
    var m := GetGetMethod(ClassAt(chain, i), fieldName);
    m.Some? && m.value.Returned? && m.value.value.None?
  }

  /** The class at which the getter walk stops. */
  function GetterStop<V>(chain: seq<ReflectedClass<V>>, fieldName: string, i: nat): (k: nat)
    requires i <= |chain|
    ensures i <= k <= |chain|
    ensures forall j :: i <= j < k ==> GetterGaveNull(chain, fieldName, j)
    ensures k < |chain| ==> !GetterGaveNull(chain, fieldName, k)
    decreases |chain| - i
  {
    if i == |chain| || !GetterGaveNull(chain, fieldName, i) then i
    else GetterStop(chain, fieldName, i + 1)
  }

  /** The first class whose `getSetMethod` finds a setter, or `|chain|`. */
  function SetterStop<V>(chain: seq<ReflectedClass<V>>, fieldName: string, i: nat): (k: nat)
    requires i <= |chain|
    ensures i <= k <= |chain|
    ensures forall j :: i <= j < k ==> GetSetMethod(ClassAt(chain, j), fieldName).None?
    ensures k < |chain| ==> GetSetMethod(ClassAt(chain, k), fieldName).Some?
    decreases |chain| - i
  {
    if i == |chain| || GetSetMethod(ClassAt(chain, i), fieldName).Some? then i
    else SetterStop(chain, fieldName, i + 1)
  }

  /**
   * `invokeGetMethod`: null for a null object or an empty name. Otherwise the
   * getter is invoked class by class up the chain while it returns null; the
   * result is the first non-null value, and null when a class has no getter,
   * the getter throws, or the chain ends (each an exception that is caught).
   */
  method InvokeGetMethod<O, V>(classObject: Option<O>, fieldName: Option<string>, chain: seq<ReflectedClass<V>>)
    returns (r: Option<V>)
    ensures classObject.None? || IsEmpty(fieldName) ==> r.None?
    ensures classObject.Some? && !IsEmpty(fieldName) ==>
              var k := GetterStop(chain, fieldName.value, 0);
              var m := GetGetMethod(ClassAt(chain, k), fieldName.value);
              r == if m.Some? && m.value.Returned? then m.value.value else None
  {
    if classObject.None? || IsEmpty(fieldName) {
      return None;
    }
    var name := fieldName.value;
    var tempClass := 0;
    var found := GetGetMethod(ClassAt(chain, tempClass), name);
    if found.None? || found.value.Threw? {
      return None;
    }
    var value := found.value.value;
    while value.None?
      invariant tempClass < |chain|
      invariant found == GetGetMethod(ClassAt(chain, tempClass), name) && found.Some? && found.value.Returned?
      invariant value == found.value.value
      invariant GetterStop(chain, name, 0) == GetterStop(chain, name, tempClass)
      decreases |chain| - tempClass
    {
      tempClass := tempClass + 1;
      found := GetGetMethod(ClassAt(chain, tempClass), name);
      if found.None? || found.value.Threw? {
        return None;
      }
      value := found.value.value;
    }
    return value;
  }

  /**
   * `invokeSetMethod`: true without acting when the object is null, the name is
   * empty or the value is null. Otherwise the setter is looked up class by class
   * up the chain; the result is false when no class has one (the walk runs off
   * the chain) or when the setter found throws, and true otherwise.
   */
  method InvokeSetMethod<O, V>(classObject: Option<O>, fieldName: Option<string>, setValue: Option<V>,
                               chain: seq<ReflectedClass<V>>)
    returns (ok: bool)
    ensures classObject.None? || IsEmpty(fieldName) || setValue.None? ==> ok
    ensures classObject.Some? && !IsEmpty(fieldName) && setValue.Some? ==>
              var k := SetterStop(chain, fieldName.value, 0);
              ok <==> k < |chain| && GetSetMethod(ClassAt(chain, k), fieldName.value).value.Returned?
  {
    if classObject.None? || IsEmpty(fieldName) || setValue.None? {
      return true;
    }
    var name := fieldName.value;
    var tempClass := 0;
    var found := GetSetMethod(ClassAt(chain, tempClass), name);
    while found.None?
      invariant tempClass <= |chain|
      invariant found == GetSetMethod(ClassAt(chain, tempClass), name)
      invariant SetterStop(chain, name, 0) == SetterStop(chain, name, tempClass)
      decreases |chain| - tempClass
    {
      if tempClass == |chain| {
        return false;  // getSuperclass() on a null class
      }
      tempClass := tempClass + 1;
      found := GetSetMethod(ClassAt(chain, tempClass), name);
    }
    return found.value.Returned?;
  }
}
