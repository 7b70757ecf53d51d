/**
 * The platform's incident store as the handler reaches it through the REST
 * client's read-modify-write call: fetch the record at a path, let a mutation
 * change the fetched copy in place, write the copy back whole.
 */
module Rest {
  import opened Wrappers
  import opened Values
  import opened Policy
  import opened Incident

  datatype RestError = NotFound(uri: string)

  /** One write the client sent: the path and the body. */
  datatype Put = Put(uri: string, body: Record)

  class RestClient {
    /** The records the platform holds, by resource path. */
    var store: map<string, Record>
    /** Every write sent so far, oldest first. */
    var puts: seq<Put>

    constructor (store: map<string, Record>)
      ensures this.store == store && puts == []
    {
      this.store := store;
      puts := [];
    }

    /**
     * `get_put(uri, apply)`: a missing record fails the call and changes
     * nothing; otherwise the stored record becomes the mutated copy, every
     * field the mutation does not write is kept, and exactly one write is sent.
     */
    method GetPut(uri: string, m: Mutation) returns (r: Result<Record, RestError>)
      modifies this
      ensures uri !in old(store) ==> r == Err(NotFound(uri)) && store == old(store) && puts == old(puts)
      ensures uri in old(store) ==>
                && r == Ok(m.Apply(old(store)[uri]))
                && store == old(store)[uri := r.value]
                && puts == old(puts) + [Put(uri, r.value)]
    {
      if uri !in store {
        return Err(NotFound(uri));
      }
      var copy := new IncidentCopy(store[uri]);
      copy.Apply(m);
      store := store[uri := copy.fields];
      puts := puts + [Put(uri, copy.fields)];
      r := Ok(copy.fields);
    }
  }
}
