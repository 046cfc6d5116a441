/**
 * Form drafts. Every form of the site keeps its inputs in a record of strings
 * keyed by field name; an input's change handler replaces the record with a
 * copy in which one key is rewritten, and a submit handler replaces it with a
 * record of empty strings.
 */
module Forms {

  /** A form draft: the text typed so far, by field name. */
  type Draft = map<string, string>

  /** The record a form starts with and is reset to: every field empty. */
  function Blank(fields: set<string>): (d: Draft)
    ensures d.Keys == fields
    ensures forall k :: k in d ==> d[k] == ""
  {
    map k | k in fields :: ""
  }

  /** The spread update `{ ...d, [k]: v }`: field `k` becomes `v`, every other field is kept. */
  function Put(d: Draft, k: string, v: string): (r: Draft)
    ensures r.Keys == d.Keys + {k}
    ensures r[k] == v
    ensures forall j :: j in d && j != k ==> r[j] == d[j]
  {
    d[k := v]
  }

  /** Every field of `required` is present and non-empty: what the browser's `required` check lets through. */
  predicate Filled(d: Draft, required: set<string>)
    ensures Filled(d, required) ==> required <= d.Keys
    ensures required == {} ==> Filled(d, required)
  {
    forall k :: k in required ==> k in d && d[k] != ""
  }

  /** A record passes the check for two sets of fields exactly when it passes for their union. */
  lemma FilledUnion(d: Draft, a: set<string>, b: set<string>)
    ensures Filled(d, a + b) <==> Filled(d, a) && Filled(d, b)
  {
  }

  /** A blank record never passes a non-empty `required` check. */
  lemma BlankNotFilled(fields: set<string>, required: set<string>)
    requires required != {}
    ensures !Filled(Blank(fields), required)
  {
    var k :| k in required;
    assert !(k in Blank(fields) && Blank(fields)[k] != "");
  }

  /** Writing a non-empty value to a required field keeps a filled draft filled. */
  lemma PutKeepsFilled(d: Draft, required: set<string>, k: string, v: string)
    requires Filled(d, required)
    requires k in required ==> v != ""
    ensures Filled(Put(d, k, v), required)
  {
  }
}
