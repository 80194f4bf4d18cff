/** The Android key-value store behind the registry: the plugin's
    SharedPreferences file, written through `putString`/`putInt`/`putLong`/
    `putBoolean`/`remove` (each committed at once) and read through getters
    that fall back to fixed defaults for an absent key. */
module SharedPrefs {

  import opened Values

  /** A stored string. The plugin stores call data as the JSON text of a map;
      JSON syntax is not modelled, so such a text is kept as the map itself. */
  datatype Text = Plain(chars: string) | JsonObject(fields: CallData)

  datatype Value = Str(text: Text) | Int(i: int32) | Long(l: int64) | Bool(b: bool)

  type Store = map<string, Value>

  const DefaultInt: int32 := -1
  const DefaultLong: int64 := -1

  /** A typed read. SharedPreferences throws ClassCastException when the key
      holds a value of another type. */
  datatype Read<T> = Got(value: T) | ClassCast

  /** `getString(context, key)`, default `""` */
  function StringAt(store: Store, key: string): (r: Read<Text>)
    ensures key !in store ==> r == Got(Plain(""))
    ensures key in store && store[key].Str? ==> r == Got(store[key].text)
    ensures r.ClassCast? <==> key in store && !store[key].Str?
  {
    if key !in store then Got(Plain(""))
    else if store[key].Str? then Got(store[key].text)
    else ClassCast
  }

  /** `getInt(context, key)`, default `-1` */
  function IntAt(store: Store, key: string): (r: Read<int32>)
    ensures key !in store ==> r == Got(DefaultInt)
    ensures key in store && store[key].Int? ==> r == Got(store[key].i)
    ensures r.ClassCast? <==> key in store && !store[key].Int?
  {
    if key !in store then Got(DefaultInt)
    else if store[key].Int? then Got(store[key].i)
    else ClassCast
  }

  /** `getLong(context, key)`, default `-1L` */
  function LongAt(store: Store, key: string): (r: Read<int64>)
    ensures key !in store ==> r == Got(DefaultLong)
    ensures key in store && store[key].Long? ==> r == Got(store[key].l)
    ensures r.ClassCast? <==> key in store && !store[key].Long?
  {
    if key !in store then Got(DefaultLong)
    else if store[key].Long? then Got(store[key].l)
    else ClassCast
  }

  /** `getBoolean(context, key)`, default `false` */
  function BooleanAt(store: Store, key: string): (r: Read<bool>)
    ensures key !in store ==> r == Got(false)
    ensures key in store && store[key].Bool? ==> r == Got(store[key].b)
    ensures r.ClassCast? <==> key in store && !store[key].Bool?
  {
    if key !in store then Got(false)
    else if store[key].Bool? then Got(store[key].b)
    else ClassCast
  }

  /** A key never written reads as every getter's default. */
  lemma AbsentKeyDefaults(store: Store, key: string)
    requires key !in store
    ensures StringAt(store, key) == Got(Plain(""))
    ensures IntAt(store, key) == Got(-1)
    ensures LongAt(store, key) == Got(-1)
    ensures BooleanAt(store, key) == Got(false)
  {
  }

  /** The SharedPreferences file. Every put commits before it returns. */
  class Preferences {
    var store: Store

    constructor ()
      ensures store == map[]
    {
      store := map[];
    }

    /** `putString`; a null value removes the key, as the Editor does. */
    method PutString(key: string, value: Option<Text>)
      modifies this
      ensures store == if value.None? then old(store) - {key} else old(store)[key := Str(value.value)]
      ensures value.Some? ==> StringAt(store, key) == Got(value.value)
      ensures value.None? ==> key !in store
      ensures forall k :: k != key ==> StringAt(store, k) == StringAt(old(store), k)
    {
      if value.None? {
        store := store - {key};
      } else {
        store := store[key := Str(value.value)];
      }
    }

    method PutInt(key: string, value: int32)
      modifies this
      ensures store == old(store)[key := Int(value)]
      ensures IntAt(store, key) == Got(value)
    {
      store := store[key := Int(value)];
    }

    method PutLong(key: string, value: int64)
      modifies this
      ensures store == old(store)[key := Long(value)]
      ensures LongAt(store, key) == Got(value)
    {
      store := store[key := Long(value)];
    }

    method PutBoolean(key: string, value: bool)
      modifies this
      ensures store == old(store)[key := Bool(value)]
      ensures BooleanAt(store, key) == Got(value)
    {
      store := store[key := Bool(value)];
    }

    /** `remove`: afterwards every getter on `key` returns its default and no
        other key changes. */
    method Remove(key: string)
      modifies this
      ensures store == old(store) - {key}
      ensures StringAt(store, key) == Got(Plain("")) && IntAt(store, key) == Got(-1)
      ensures LongAt(store, key) == Got(-1) && BooleanAt(store, key) == Got(false)
      ensures forall k :: k != key ==> (k in store <==> k in old(store)) && (k in store ==> store[k] == old(store)[k])
    {
      store := store - {key};
    }
  }
}
