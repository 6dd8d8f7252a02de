/** The favorites of api.py: the process-wide list `Favorites` (api.py:14),
    changed in place by `Favorite.post` and `Unfavorite.delete` and read by
    `ListFavorites.get`. The store holds canonical official names, never two
    equal ones as long as requests are handled one at a time (the source
    takes no lock). */
module Favorites {
  import opened Wrappers
  import opened Upstream
  import opened CountryInfo

  /** No name occurs twice. */
  predicate NoDuplicates(s: seq<string>)
  {
    forall i, j :: 0 <= i < j < |s| ==> s[i] != s[j]
  }

  /** The position of the first occurrence of `x`, the one Python's
      `list.remove` deletes. */
  function IndexOf(s: seq<string>, x: string): (i: nat)
    requires x in s
    ensures i < |s| && s[i] == x && x !in s[..i]
  {
    if s[0] == x then 0
    else
      var j := IndexOf(s[1..], x);
      assert s[..j + 1] == [s[0]] + s[1..][..j];
      j + 1
  }

  /** Deleting the entry at `i` from a duplicate-free list keeps it
      duplicate-free, loses exactly that name and keeps every other. */
  lemma DeleteAt(s: seq<string>, i: nat)
    requires NoDuplicates(s) && i < |s|
    ensures var d := s[..i] + s[i + 1..];
            && |d| == |s| - 1
            && NoDuplicates(d)
            && (forall y :: y in d <==> y in s && y != s[i])
  {
  }

  /** Appending a name that is absent keeps the list duplicate-free. */
  lemma AppendFresh(s: seq<string>, x: string)
    requires NoDuplicates(s) && x !in s
    ensures NoDuplicates(s + [x])
  {
  }

  /** The message `Favorite.post` answers with (api.py:129, api.py:132). */
  datatype AddOutcome = AlreadyFavorite(name: string) | Added(name: string)

  /** The message `Unfavorite.delete` answers with (api.py:157, api.py:158). */
  datatype RemoveOutcome = Removed(name: string) | WasNoFavorite(name: string)

  class Store {
    var names: seq<string>

    ghost predicate Valid()
      reads this
    {
      NoDuplicates(names)
    }

    /** The list starts empty (api.py:14). */
    constructor ()
      ensures Valid() && names == []
    {
      names := [];
    }

    /** Adds a canonical name unless it is already there (api.py:128-132). */
    method Add(name: string) returns (outcome: AddOutcome)
      requires Valid()
      modifies this
      ensures Valid()
      ensures old(name in names) ==> outcome == AlreadyFavorite(name) && names == old(names)
      ensures old(name !in names) ==> outcome == Added(name) && names == old(names) + [name]
    {
      if name in names {
        return AlreadyFavorite(name);
      }
      AppendFresh(names, name);
      names := names + [name];
      return Added(name);
    }

    /** Removes a canonical name if it is there (api.py:155-158). */
    method Remove(name: string) returns (outcome: RemoveOutcome)
      requires Valid()
      modifies this
      ensures Valid()
      ensures old(name in names) ==>
                var i := IndexOf(old(names), name);
                && outcome == Removed(name)
                && names == old(names)[..i] + old(names)[i + 1..]
                && |names| == |old(names)| - 1
      ensures old(name !in names) ==> outcome == WasNoFavorite(name) && names == old(names)
      ensures forall y :: y in names <==> y in old(names) && y != name
    {
      if name in names {
        var i := IndexOf(names, name);
        DeleteAt(names, i);
        names := names[..i] + names[i + 1..];
        return Removed(name);
      }
      return WasNoFavorite(name);
    }

    /** `ListFavorites.get` (api.py:167-170): one `{name}` record per stored
        name, in stored order; the store is not changed. */
    method List() returns (records: seq<NameRecord>)
      ensures |records| == |names|
      ensures forall i :: 0 <= i < |names| ==> records[i] == NameRecord(names[i])
    {
      records := [];
      for i := 0 to |names|
        invariant |records| == i
        invariant forall k :: 0 <= k < i ==> records[k] == NameRecord(names[k])
      {
        records := records + [NameRecord(names[i])];
      }
    }

    /** `Favorite.post` (api.py:121-132): look up the canonical name, then add
        it. A failed lookup leaves the store as it was. */
    method Favorite(country: string, directory: Directory) returns (reply: Reply<AddOutcome>)
      requires Valid()
      modifies this
      ensures Valid()
      ensures reply.calls == [DirectoryCall(FullName(country))]
      ensures var canonical := CanonicalName(country, directory).result;
              match canonical
              case Failure(e) => reply.result == Failure(e) && names == old(names)
              case Success(name) =>
                && (old(name in names) ==> reply.result == Success(AlreadyFavorite(name)) && names == old(names))
                && (old(name !in names) ==> reply.result == Success(Added(name)) && names == old(names) + [name])
    {
      var lookup := CanonicalName(country, directory);
      match lookup.result
      case Failure(e) =>
        reply := Reply(Failure(e), lookup.calls);
      case Success(name) =>
        var outcome := Add(name);
        reply := Reply(Success(outcome), lookup.calls);
    }

    /** `Unfavorite.delete` (api.py:148-158): look up the canonical name, then
        remove it. A failed lookup leaves the store as it was. */
    method Unfavorite(country: string, directory: Directory) returns (reply: Reply<RemoveOutcome>)
      requires Valid()
      modifies this
      ensures Valid()
      ensures reply.calls == [DirectoryCall(FullName(country))]
      ensures var canonical := CanonicalName(country, directory).result;
              match canonical
              case Failure(e) => reply.result == Failure(e) && names == old(names)
              case Success(name) =>
                && (old(name in names) ==>
                      var i := IndexOf(old(names), name);
                      reply.result == Success(Removed(name)) && names == old(names)[..i] + old(names)[i + 1..])
                && (old(name !in names) ==> reply.result == Success(WasNoFavorite(name)) && names == old(names))
    {
      var lookup := CanonicalName(country, directory);
      match lookup.result
      case Failure(e) =>
        reply := Reply(Failure(e), lookup.calls);
      case Success(name) =>
        var outcome := Remove(name);
        reply := Reply(Success(outcome), lookup.calls);
    }
  }

  /** The favorites part of `testAPI` (script.py:15-21): favorite two
      countries, list, unfavorite the second, list again. */
  method AddTwoRemoveOne(a: string, b: string) returns (afterAdds: seq<NameRecord>, afterRemove: seq<NameRecord>)
    requires a != b
    ensures afterAdds == [NameRecord(a), NameRecord(b)]
    ensures afterRemove == [NameRecord(a)]
  {
    var store := new Store();
    var _ := store.Add(a);
    var _ := store.Add(b);
    afterAdds := store.List();
    var _ := store.Remove(b);
    afterRemove := store.List();
  }

  /** Adding the same name twice: the second add reports it as already a
      favorite and the list keeps one entry. */
  method AddTwice(name: string) returns (first: AddOutcome, second: AddOutcome, listing: seq<NameRecord>)
    ensures first == Added(name) && second == AlreadyFavorite(name)
    ensures listing == [NameRecord(name)]
  {
    var store := new Store();
    first := store.Add(name);
    second := store.Add(name);
    listing := store.List();
  }

  /** Two spellings of a country that the directory resolves to the same
      official name denote the same favorite: favoriting one and unfavoriting
      the other leaves the list empty. */
  method SpellingsShareFavorite(directory: Directory, spelling: string, otherSpelling: string, official: string)
    returns (added: Reply<AddOutcome>, removed: Reply<RemoveOutcome>, listing: seq<NameRecord>)
    requires CanonicalName(spelling, directory).result == Success(official)
    requires CanonicalName(otherSpelling, directory).result == Success(official)
    ensures added.result == Success(Added(official))
    ensures removed.result == Success(Removed(official))
    ensures listing == []
  {
    var store := new Store();
    added := store.Favorite(spelling, directory);
    removed := store.Unfavorite(otherSpelling, directory);
    listing := store.List();
  }
}
