/** JSON objects written member by member, some of them only when there is something to write. */
module Fields {
  import opened Seqs
  import opened Json

  type Fields = seq<(string, Option<Json>)>

  function Members(fields: Fields): map<string, Json> {
    if fields == [] then map[]
    else
      var before, last := Members(fields[..|fields| - 1]), fields[|fields| - 1];
      match last.1
      case None => before
      case Some(value) => before[last.0 := value]
  }

  function Document(fields: Fields): Json {
    Obj(Members(fields))
  }

  /** What a reader finds: null stands for a member that was not written. */
  function OrNull(value: Option<Json>): Json {
    match value
    case None => Null
    case Some(j) => j
  }

  predicate Distinct(fields: Fields) {
    forall i, j | 0 <= i < j < |fields| :: fields[i].0 != fields[j].0
  }

  lemma {:induction false} FieldAbsent(fields: Fields, key: string)
    requires forall i | 0 <= i < |fields| :: fields[i].0 != key
    ensures !Document(fields).Has(key)
  {
    if fields != [] {
      FieldAbsent(fields[..|fields| - 1], key);
    }
  }

  lemma {:induction false} FieldAt(fields: Fields, i: nat)
    requires i < |fields| && Distinct(fields)
    ensures Document(fields).At(fields[i].0) == OrNull(fields[i].1)
    ensures Document(fields).Has(fields[i].0) <==> fields[i].1.Some?
  {
    var n := |fields| - 1;
    if i < n {
      FieldAt(fields[..n], i);
    } else {
      FieldAbsent(fields[..n], fields[n].0);
    }
  }

  function When(on: bool, value: Json): Option<Json> {
    if on then Some(value) else None
  }

  /** Text that is written only when there is some. */
  function WhenText(text: string): Option<Json> {
    When(text != "", CText(text))
  }

  function WhenSet(value: Option<Float>): Option<Json> {
    match value
    case None => None
    case Some(d) => Some(Double(d))
  }
}
