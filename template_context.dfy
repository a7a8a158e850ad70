/** The JSON values and the key/value context handed to the template
    renderer (`HashMap<String, serde_json::Value>` in the source). */
module TemplateContext {

  /** The `serde_json::Value` shapes the parameter layers produce. */
  datatype Value = Null | Bool(b: bool) | Num(n: int) | Str(s: string) | Arr(items: seq<Value>)

  type Context = map<string, Value>

  /** `HashMap::extend`: every entry of `top` is inserted into `base`, so on
      a shared key the value from `top` wins. */
  function Extend(base: Context, top: Context): (r: Context)
    ensures r.Keys == base.Keys + top.Keys
    ensures forall k :: k in top ==> r[k] == top[k]
    ensures forall k :: k in base && k !in top ==> r[k] == base[k]
  {
    base + top
  }

  /** A run of `insert` calls, in the order they are made. */
  type Inserts = seq<(string, Value)>

  function KeysOf(es: Inserts): set<string>
  {
    set i | 0 <= i < |es| :: es[i].0
  }

  /** `insert` for each entry in turn: the keys of the entries are added and
      a later entry overwrites an earlier one with the same key. */
  function InsertAll(c: Context, es: Inserts): (r: Context)
    ensures r.Keys == c.Keys + KeysOf(es)
    decreases |es|
  {
    if es == [] then c
    else
      var last := es[|es| - 1];
      assert KeysOf(es) == KeysOf(es[..|es| - 1]) + {last.0} by {
        forall k | k in KeysOf(es) ensures k in KeysOf(es[..|es| - 1]) + {last.0} {
          var i :| 0 <= i < |es| && es[i].0 == k;
          if i < |es| - 1 { assert es[..|es| - 1][i] == es[i]; }
        }
      }
      InsertAll(c, es[..|es| - 1])[last.0 := last.1]
  }

  /** A key no entry names keeps the value it had. */
  lemma {:induction false} InsertAllKeeps(c: Context, es: Inserts, k: string)
    requires k !in KeysOf(es)
    ensures k in c ==> InsertAll(c, es)[k] == c[k]
    decreases |es|
  {
    if es != [] {
      assert k != es[|es| - 1].0;
      assert KeysOf(es[..|es| - 1]) <= KeysOf(es) by {
        forall k' | k' in KeysOf(es[..|es| - 1]) ensures k' in KeysOf(es) {
          var i :| 0 <= i < |es| - 1 && es[..|es| - 1][i].0 == k';
        }
      }
      InsertAllKeeps(c, es[..|es| - 1], k);
    }
  }

  /** The entry at `i` is the value of its key when no later entry names
      the same key. */
  lemma {:induction false} InsertAllLast(c: Context, es: Inserts, i: nat)
    requires i < |es|
    requires forall j :: i < j < |es| ==> es[j].0 != es[i].0
    ensures InsertAll(c, es)[es[i].0] == es[i].1
    decreases |es|
  {
    if i < |es| - 1 {
      var init := es[..|es| - 1];
      assert init[i] == es[i];
      InsertAllLast(c, init, i);
    }
  }
}
