/**
 * The client screen: the case-insensitive name search over the repository's
 * clients and the Save handler of the new-client form. Both UI variants of the
 * screen run this same logic.
 */
module Clients {
  import opened Types
  import opened Text
  import opened Sequences
  import Ids
  import Storage
  import Repository

  /**
   * `client.name.toLowerCase().includes(searchQuery.toLowerCase())`: the lower-cased
   * query occurs somewhere in the lower-cased name; the empty query matches every name.
   */
  predicate NameMatches(name: string, query: string): (ok: bool)
    ensures ok <==> exists k :: OccursAt(ToLowerAscii(name), ToLowerAscii(query), k)
    ensures query == [] ==> ok
  {
    IncludesIffOccurs(ToLowerAscii(name), ToLowerAscii(query));
    Includes(ToLowerAscii(name), ToLowerAscii(query))
  }

  /** `filteredClients`: the clients whose name matches the query, in their original order. */
  function FilterClients(clients: seq<Client>, query: string): (r: seq<Client>)
    ensures IsSubsequence(r, clients)
    ensures forall c :: c in r <==> c in clients && NameMatches(c.name, query)
  {
    if clients == [] then []
    else if NameMatches(clients[0].name, query) then [clients[0]] + FilterClients(clients[1..], query)
    else FilterClients(clients[1..], query)
  }

  /**
   * Filtering distributes over concatenation; with the one-element cases this pins
   * the result down as exactly the matches, every occurrence kept, in order.
   */
  lemma {:induction false} FilterClientsConcat(a: seq<Client>, b: seq<Client>, query: string)
    ensures FilterClients(a + b, query) == FilterClients(a, query) + FilterClients(b, query)
  {
    if a == [] {
      assert a + b == b;
    } else {
      assert (a + b)[0] == a[0];
      assert (a + b)[1..] == a[1..] + b;
      FilterClientsConcat(a[1..], b, query);
    }
  }

  /** A one-element list is kept exactly when its client matches. */
  lemma FilterClientsSingle(c: Client, query: string)
    ensures FilterClients([c], query) == if NameMatches(c.name, query) then [c] else []
  {
    assert [c][1..] == [];
  }

  /** An empty query keeps every client. */
  lemma {:induction false} EmptyQueryKeepsAll(clients: seq<Client>)
    ensures FilterClients(clients, "") == clients
  {
    if clients != [] {
      IncludesEmpty(ToLowerAscii(clients[0].name));
      assert ToLowerAscii("") == "";
      EmptyQueryKeepsAll(clients[1..]);
      assert clients == [clients[0]] + clients[1..];
    }
  }

  /** The filtered list is never longer than the client list. */
  lemma FilterClientsNoLonger(clients: seq<Client>, query: string)
    ensures |FilterClients(clients, query)| <= |clients|
  {
    SubsequenceNoLonger(FilterClients(clients, query), clients);
  }

  /** The query's case does not matter: lower-casing it first selects the same clients. */
  lemma QueryCaseInsensitive(name: string, query: string)
    ensures NameMatches(name, query) <==> NameMatches(name, ToLowerAscii(query))
  {
    ToLowerIdempotent(query);
  }

  /** The Save handler's gate: the draft name is not blank. */
  predicate CanSaveClient(name: string): (ok: bool)
    ensures ok <==> !IsBlank(name)
  {
    Trim(name) != ""
  }

  /**
   * What Save submits: the trimmed name, and the email and phone exactly as typed
   * (possibly ""); once the gate passes, the name is non-empty and has no
   * surrounding whitespace.
   */
  function Submission(name: string, email: string, phone: string): (c: ClientFields)
    ensures c.name == Trim(name) && c.email == Some(email) && c.phone == Some(phone)
    ensures c.address.None? && c.notes.None?
    ensures CanSaveClient(name) ==> c.name != [] && !IsWhitespace(c.name[0]) && !IsWhitespace(c.name[|c.name| - 1])
  {
    ClientFields(Trim(name), Some(email), Some(phone), None, None)
  }

  /** The client screen's state: the search text and the new-client draft. */
  class ClientForm {
    var searchQuery: string
    var name: string
    var email: string
    var phone: string

    constructor ()
      ensures searchQuery == "" && name == "" && email == "" && phone == ""
    {
      searchQuery, name, email, phone := "", "", "", "";
    }

    /** The clients the list shows for the current query. */
    function Shown(repo: Repository.DataProvider): (r: seq<Client>)
      reads this, repo
      ensures |r| <= |repo.clients|
      ensures forall c :: c in r <==> c in repo.clients && NameMatches(c.name, searchQuery)
    {
      FilterClientsNoLonger(repo.clients, searchQuery);
      FilterClients(repo.clients, searchQuery)
    }

    /**
     * The Save handler: with a non-blank name, add the client to the repository and
     * reset the draft to empty name, email and phone; otherwise nothing changes.
     */
    method SaveClient(repo: Repository.DataProvider, now: Instant, tick: nat)
      modifies this, repo, repo.store
      ensures CanSaveClient(old(name)) ==>
                && repo.clients == old(repo.clients) + [Submission(old(name), old(email), old(phone)).Stamp(Ids.MillisId(tick), now)]
                && repo.estimates == old(repo.estimates) && repo.photos == old(repo.photos)
                && repo.store.entries == old(repo.store.entries)[Storage.ClientsKey := repo.clientCodec.serialize(repo.clients)]
                && name == "" && email == "" && phone == ""
      ensures !CanSaveClient(old(name)) ==>
                && unchanged(repo) && unchanged(repo.store)
                && name == old(name) && email == old(email) && phone == old(phone)
      ensures searchQuery == old(searchQuery)
      ensures old(repo.Persisted()) ==> repo.Persisted()
    {
      if CanSaveClient(name) {
        repo.AddClient(Submission(name, email, phone), now, tick);
        name, email, phone := "", "", "";
      }
    }
  }
}
