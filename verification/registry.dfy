/**
 * Looking a model up by id, as `BedrockModel(rawValue:)` does. That
 * initializer is declared outside the modelled files; here it is the first
 * entry of a table with the given id, and the table is the two modelled
 * families' entries (the full registry holds further families that are not
 * part of this model).
 */
module Registry {
  import opened Base
  import opened Models
  import AnthropicModels
  import LlamaModels

  /** Position `i` holds the first entry of `table` with id `id`. */
  predicate FirstWithId(table: seq<BedrockModel>, i: int, id: string) {
    0 <= i < |table| && table[i].id == id && forall j :: 0 <= j < i ==> table[j].id != id
  }

  /** The first entry of `table` whose id is `id`, if any. */
  function Lookup(table: seq<BedrockModel>, id: string): (r: Option<BedrockModel>)
    ensures r.None? <==> forall m <- table :: m.id != id
    ensures r.Some? ==> exists i :: FirstWithId(table, i, id) && table[i] == r.value
  {
    if table == [] then None
    else if table[0].id == id then Some(table[0])
    else
      var r := Lookup(table[1..], id);
      if r.Some? then
        var i :| FirstWithId(table[1..], i, id) && table[1..][i] == r.value;
        assert FirstWithId(table, i + 1, id) && table[i + 1] == r.value;
        r
      else r
  }

  /** Entries that share an id are the same entry, so a lookup by id cannot pick the wrong one. */
  predicate Unambiguous(table: seq<BedrockModel>) {
    forall i, j :: 0 <= i < j < |table| && table[i].id == table[j].id ==> table[i] == table[j]
  }

  /** In an unambiguous table, every entry is found by its own id. */
  lemma LookupFindsEntry(table: seq<BedrockModel>, m: BedrockModel)
    requires m in table && Unambiguous(table)
    ensures Lookup(table, m.id) == Some(m)
  {
    var k :| 0 <= k < |table| && table[k] == m;
    var r := Lookup(table, m.id);
    var i :| FirstWithId(table, i, m.id) && table[i] == r.value;
    if i < k {
      assert table[i].id == table[k].id;
    }
  }

  /** Joining two unambiguous tables whose ids do not overlap gives an unambiguous table. */
  lemma JoinUnambiguous(a: seq<BedrockModel>, b: seq<BedrockModel>)
    requires Unambiguous(a) && Unambiguous(b)
    requires forall x <- a, y <- b :: x.id != y.id
    ensures Unambiguous(a + b)
  {
    forall i, j | 0 <= i < j < |a + b| && (a + b)[i].id == (a + b)[j].id
      ensures (a + b)[i] == (a + b)[j]
    {
      if j < |a| {
        assert (a + b)[i] == a[i] && (a + b)[j] == a[j];
      } else if i >= |a| {
        assert (a + b)[i] == b[i - |a|] && (a + b)[j] == b[j - |a|];
      } else {
        assert false;
      }
    }
  }

  const Table: seq<BedrockModel> := AnthropicModels.All + LlamaModels.All

  /** No Claude id is a Llama id. */
  lemma FamiliesDoNotShareIds()
    ensures forall a <- AnthropicModels.All, l <- LlamaModels.All :: a.id != l.id
  {
    ClaudeIdLengths();
    LlamaIdLengths();
    forall a <- AnthropicModels.All, l <- LlamaModels.All
      ensures a.id != l.id
    {
      assert |a.id| != |l.id|;
    }
  }

  /** The lengths of the Claude ids; none is the length of a Llama id. */
  lemma ClaudeIdLengths()
    ensures forall a <- AnthropicModels.All :: |a.id| in {19, 21, 27, 38, 40, 43, 44}
  {
  }

  /** The lengths of the Llama ids. */
  lemma LlamaIdLengths()
    ensures forall l <- LlamaModels.All :: |l.id| in {28, 29, 33, 34}
  {
  }

  /** The modelled table is unambiguous even though one Llama id is declared twice. */
  lemma TableUnambiguous()
    ensures Unambiguous(Table)
  {
    AnthropicModels.DistinctIds();
    LlamaModels.DuplicateId();
    FamiliesDoNotShareIds();
    JoinUnambiguous(AnthropicModels.All, LlamaModels.All);
  }

  /** Every modelled entry, the doubly declared Llama id included, is found by its id. */
  lemma EveryEntryFound()
    ensures forall m <- Table :: Lookup(Table, m.id) == Some(m)
  {
    TableUnambiguous();
    forall m <- Table
      ensures Lookup(Table, m.id) == Some(m)
    {
      LookupFindsEntry(Table, m);
    }
  }

  /** An id no entry carries gives no model, not an error. */
  lemma UnknownIdGivesNone(id: string)
    requires forall m <- Table :: m.id != id
    ensures Lookup(Table, id) == None
  {
  }
}
