/** The part of URL handling the links rely on: the query string of a URL and
    `URLSearchParams.get`. */
module Urls {
  import opened Wrappers
  import opened Text

  /** The query string of a URL: what follows its first '?', up to any '#'. */
  function SearchOf(url: string): string {
    BeforeFirst(AfterFirst(url, '?'), '#')
  }

  /** `new URLSearchParams(search).get(name)`: the value of the first
      `name=value` pair with that name; a pair without '=' has the value "". */
  function GetParam(search: string, name: string): Option<string>
    decreases |search|
  {
    var pair := BeforeFirst(search, '&');
    if BeforeFirst(pair, '=') == name then Some(AfterFirst(pair, '='))
    else if '&' in search then
      assert |AfterFirst(search, '&')| < |search| by { SplitAround(search, '&'); }
      GetParam(AfterFirst(search, '&'), name)
    else None
  }

  /** Characters that would end or alter a query-string value. */
  predicate PlainValue(v: string) {
    '&' !in v && '#' !in v && '%' !in v && '+' !in v
  }

  /** A link `base?name=value` gives `value` back for `name`, when the base
      has no '?' and the value needs no escaping. */
  lemma ParamRoundTrip(base: string, name: string, value: string)
    requires '?' !in base
    requires '&' !in name && '=' !in name && '#' !in name && name != ""
    requires PlainValue(value)
    ensures GetParam(SearchOf(base + "?" + name + "=" + value), name) == Some(value)
  {
    var search := name + ['='] + value;
    assert base + "?" + name + "=" + value == base + ['?'] + search;
    SplitJoined(base, '?', search);
    assert '#' !in search && '&' !in search by {
      assert '#' !in name + ['='] && '&' !in name + ['='];
    }
    BeforeFirstAbsent(search, '#');
    BeforeFirstAbsent(search, '&');
    SplitJoined(name, '=', value);
  }
}
