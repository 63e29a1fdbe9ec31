/** get_matrix and matrix_cache (highlighter.py:65, 72-76): a process-wide
    memo table from background path to perspective coefficients, filled on
    first use from the background's sidecar file.  Opening the sidecar and
    reading its "coefficients" field is an abstract loader that may fail;
    the number of coefficients is not checked. */
module Matrices {
  import opened Wrappers
  import opened Sidecar

  /** The "coefficients" value of a sidecar file, stored as it is read. */
  type Coefficients = seq<real>

  /** Why reading a sidecar file fails: open raises, or the JSON object has
      no "coefficients" key (or is not JSON at all). */
  datatype LoadError = MissingFile(path: string) | MissingCoefficients(path: string)

  /** open(path) followed by json.load(f)["coefficients"]. */
  type Loader = string -> Result<Coefficients, LoadError>

  /** The outcome of one get_matrix call. */
  datatype Fetched = Fetched(result: Result<Coefficients, LoadError>, entries: map<string, Coefficients>)

  /** One get_matrix(bg) call on a cache holding `entries`: what it returns and
      what the cache holds afterwards.  A hit returns the stored value and
      keeps the cache; a miss reads the sidecar of `bg`, and stores what it
      read under `bg` alone, unless the read raised, which leaves the cache
      as it was. */
  function Fetch(entries: map<string, Coefficients>, bg: string, load: Loader): (f: Fetched)
    ensures bg in entries ==> f == Fetched(Success(entries[bg]), entries)
    ensures bg !in entries ==> f.result == load(MatrixFile(bg))
    ensures f.result.Failure? ==> f.entries == entries
    ensures f.result.Success? ==>
              f.entries.Keys == entries.Keys + {bg} && f.entries[bg] == f.result.value
              && forall k :: k in entries ==> f.entries[k] == entries[k]
  {
    if bg in entries then Fetched(Success(entries[bg]), entries)
    else
      match load(MatrixFile(bg))
      case Failure(e) => Fetched(Failure(e), entries)
      case Success(c) => Fetched(Success(c), entries[bg := c])
  }

  /** A second get_matrix for the same background returns what the first
      returned; after a successful first call it is a hit, does not read the
      sidecar again and leaves the cache as the first call left it. */
  lemma FetchTwice(entries: map<string, Coefficients>, bg: string, load: Loader)
    ensures var first := Fetch(entries, bg, load);
            var second := Fetch(first.entries, bg, load);
            second.result == first.result
            && (first.result.Success? ==> bg in first.entries && second.entries == first.entries)
  {
  }

  /** Entries once stored are never changed or dropped. */
  lemma FetchKeepsEntries(entries: map<string, Coefficients>, bg: string, load: Loader, k: string)
    requires k in entries
    ensures var f := Fetch(entries, bg, load); k in f.entries && f.entries[k] == entries[k]
  {
  }

  /** Whatever the sidecar holds is stored, however many coefficients it has. */
  lemma FetchStoresAnyLength(bg: string, c: Coefficients)
    ensures Fetch(map[], bg, _ => Success(c)) == Fetched(Success(c), map[bg := c])
  {
  }

  class MatrixCache {
    /** matrix_cache. */
    var entries: map<string, Coefficients>
    /** How many times a sidecar file has been read. */
    ghost var loads: nat

    /** The module starts with an empty cache. */
    constructor ()
      ensures entries == map[] && loads == 0
    {
      entries := map[];
      loads := 0;
    }

    /** get_matrix(bg). */
    method GetMatrix(bg: string, load: Loader) returns (r: Result<Coefficients, LoadError>)
      modifies this
      ensures Fetch(old(entries), bg, load) == Fetched(r, entries)
      ensures loads == old(loads) + (if bg in old(entries) then 0 else 1)
    {
      if bg !in entries {
        loads := loads + 1;
        var loaded := load(MatrixFile(bg));
        if loaded.Failure? {
          return Failure(loaded.error);
        }
        entries := entries[bg := loaded.value];
      }
      r := Success(entries[bg]);
    }

    /** The matrix transform uses (highlighter.py:81-82): the caller's own
        coefficients when given, without touching the cache; otherwise
        get_matrix(background). */
    method ResolveMatrix(background: string, given: Option<Coefficients>, load: Loader)
      returns (r: Result<Coefficients, LoadError>)
      modifies this
      ensures given.Some? ==> r == Success(given.value) && entries == old(entries) && loads == old(loads)
      ensures given.None? ==> Fetch(old(entries), background, load) == Fetched(r, entries)
      ensures given.None? ==> loads == old(loads) + (if background in old(entries) then 0 else 1)
    {
      if given.Some? {
        r := Success(given.value);
      } else {
        r := GetMatrix(background, load);
      }
    }
  }

  /** Two get_matrix calls for one background read its sidecar at most once
      and return equal values. */
  method GetMatrixTwice(cache: MatrixCache, bg: string, load: Loader)
    returns (first: Result<Coefficients, LoadError>, second: Result<Coefficients, LoadError>)
    modifies cache
    ensures first == second
    ensures first.Success? ==> cache.loads <= old(cache.loads) + 1
  {
    first := cache.GetMatrix(bg, load);
    second := cache.GetMatrix(bg, load);
  }
}
