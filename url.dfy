/**
 * The part of the browser's `URL` / `URLSearchParams` API the list pages use
 * to build their fetch addresses: a URL parsed from the configured base,
 * `searchParams.set(name, value)` and assignment to `pathname`.
 *
 * Parameter values are kept symbolic: a plain text value, or the JSON text of
 * the table's column filters or sorting, whose serialisation is not modelled.
 * Percent-encoding is not modelled either.
 */
module Url {
  import opened Js

  /** One column filter of the table state: `{ id, value }`. */
  datatype ColumnFilter = ColumnFilter(id: string, value: Value)

  /** One sorting rule of the table state: `{ id, desc }`. */
  datatype SortRule = SortRule(id: string, desc: bool)

  /** A query-parameter value. */
  datatype Param =
    | Text(s: string)
    | FiltersJson(filters: seq<ColumnFilter>)   // JSON.stringify(columnFilters)
    | SortingJson(sorting: seq<SortRule>)       // JSON.stringify(sorting)

  type Params = seq<(string, Param)>

  /** `searchParams.get(name)`: the first value under `name`. */
  function Lookup(ps: Params, name: string): (r: Option<Param>)
    ensures r.None? <==> forall i :: 0 <= i < |ps| ==> ps[i].0 != name
  {
    if ps == [] then None
    else if ps[0].0 == name then Some(ps[0].1)
    else Lookup(ps[1..], name)
  }

  /** The entries not named `name`, in order. */
  function Without(ps: Params, name: string): (r: Params)
    ensures forall i :: 0 <= i < |r| ==> r[i].0 != name
    ensures |r| <= |ps|
  {
    if ps == [] then []
    else if ps[0].0 == name then Without(ps[1..], name)
    else [ps[0]] + Without(ps[1..], name)
  }

  /**
   * `searchParams.set(name, value)`: the first entry named `name` takes the
   * value and any later ones are removed; without one, the entry is
   * appended.
   */
  function SetParam(ps: Params, name: string, value: Param): (r: Params)
    ensures 1 <= |r| <= |ps| + 1
    ensures ps != [] && ps[0].0 != name ==> r[0] == ps[0]
  {
    if ps == [] then [(name, value)]
    else if ps[0].0 == name then [(name, value)] + Without(ps[1..], name)
    else [ps[0]] + SetParam(ps[1..], name, value)
  }

  /** Every entry left after removing a name was there before. */
  lemma {:induction false} WithoutEntries(ps: Params, name: string)
    ensures forall p :: p in Without(ps, name) ==> p in ps
  {
    if ps != [] {
      WithoutEntries(ps[1..], name);
    }
  }

  /** After `set`, the only entry of that name is the one set, and every other entry was there before. */
  lemma {:induction false} SetParamEntries(ps: Params, name: string, value: Param)
    ensures forall p :: p in SetParam(ps, name, value) && p.0 == name ==> p == (name, value)
    ensures forall p :: p in SetParam(ps, name, value) && p.0 != name ==> p in ps
  {
    if ps != [] && ps[0].0 == name {
      WithoutEntries(ps[1..], name);
      assert SetParam(ps, name, value) == [(name, value)] + Without(ps[1..], name);
    } else if ps != [] {
      SetParamEntries(ps[1..], name, value);
      assert SetParam(ps, name, value) == [ps[0]] + SetParam(ps[1..], name, value);
    }
  }

  lemma {:induction false} LookupWithout(ps: Params, name: string, other: string)
    requires other != name
    ensures Lookup(Without(ps, name), other) == Lookup(ps, other)
  {
    if ps != [] {
      LookupWithout(ps[1..], name, other);
    }
  }

  /** After `set`, reading the name gives the value set. */
  lemma {:induction false} LookupSetSame(ps: Params, name: string, value: Param)
    ensures Lookup(SetParam(ps, name, value), name) == Some(value)
  {
    if ps != [] && ps[0].0 != name {
      LookupSetSame(ps[1..], name, value);
    }
  }

  /** `set` leaves every other name as it was. */
  lemma {:induction false} LookupSetOther(ps: Params, name: string, value: Param, other: string)
    requires other != name
    ensures Lookup(SetParam(ps, name, value), other) == Lookup(ps, other)
  {
    if ps != [] {
      if ps[0].0 == name {
        LookupWithout(ps[1..], name, other);
      } else {
        LookupSetOther(ps[1..], name, value, other);
      }
    }
  }

  /** Setting a name not yet present appends it, keeping the earlier order. */
  lemma {:induction false} SetFreshAppends(ps: Params, name: string, value: Param)
    requires Lookup(ps, name).None?
    ensures SetParam(ps, name, value) == ps + [(name, value)]
  {
    if ps != [] {
      SetFreshAppends(ps[1..], name, value);
      assert ps == [ps[0]] + ps[1..];
    }
  }

  /** What `fetch(fetchURL.href)` requests: origin, path and query, in order. */
  datatype Request = Request(origin: string, path: string, params: Params)

  /**
   * `REACT_APP_BASE_URL`, split into its origin and its path
   * (`https://host` and `/api`, say).
   */
  datatype Env = Env(origin: string, basePath: string)

  /** A `URL` object under construction. */
  class FetchUrl {
    var origin: string
    var pathname: string
    var search: Params

    /** `new URL(`${base}${path}`)` */
    constructor (env: Env, path: string)
      ensures origin == env.origin && pathname == env.basePath + path && search == []
    {
      origin := env.origin;
      pathname := env.basePath + path;
      search := [];
    }

    /** `fetchURL.searchParams.set(name, value)` */
    method Set(name: string, value: Param)
      modifies this
      ensures search == SetParam(old(search), name, value)
      ensures origin == old(origin) && pathname == old(pathname)
    {
      search := SetParam(search, name, value);
    }

    /** `fetchURL.pathname = p`: the query is kept. */
    method SetPathname(p: string)
      modifies this
      ensures pathname == p
      ensures origin == old(origin) && search == old(search)
    {
      pathname := p;
    }

    /** `fetchURL.href` */
    function Href(): Request
      reads this
    {
      Request(origin, pathname, search)
    }
  }
}
