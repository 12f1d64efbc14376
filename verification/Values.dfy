/** JSON values, as the engine holds frontmatter and job definitions. Numbers are integers. */
module Values {

  datatype Value =
    | Null
    | Bool(b: bool)
    | Num(n: int)
    | Str(s: string)
    | List(items: seq<Value>)
    | Obj(fields: map<string, Value>)

  /** Python truth of a JSON value. */
  predicate Truthy(v: Value) {
    match v
    case Null => false
    case Bool(b) => b
    case Num(n) => n != 0
    case Str(s) => s != []
    case List(items) => items != []
    case Obj(fields) => fields != map[]
  }

  /** `job.get(key)` */
  function Get(j: map<string, Value>, key: string): Value {
    if key in j then j[key] else Null
  }

  datatype Option<T> = None | Some(value: T)

  function Held<V>(m: map<string, V>, key: string): Option<V> {
    if key in m then Some(m[key]) else None
  }

  lemma SameLookups<V>(a: map<string, V>, b: map<string, V>)
    requires forall key :: Held(a, key) == Held(b, key)
    ensures a == b
  {
    forall key ensures key in a <==> key in b {
      assert Held(a, key) == Held(b, key);
    }
    forall key | key in a ensures a[key] == b[key] {
      assert Held(a, key) == Held(b, key);
    }
  }

  /** The items of `new` that are not in `held`, in order; a repeated one stays repeated. */
  function NotIn(new_: seq<Value>, held: seq<Value>): (r: seq<Value>)
    ensures forall x :: x in r <==> x in new_ && x !in held
  {
    if new_ == [] then []
    else
      var n := |new_| - 1;
      assert new_ == new_[..n] + [new_[n]];
      NotIn(new_[..n], held) + if new_[n] in held then [] else [new_[n]]
  }

  lemma {:induction false} NotInNothing(s: seq<Value>)
    ensures NotIn(s, []) == s
  {
    if s != [] {
      NotInNothing(s[..|s| - 1]);
    }
  }
}
