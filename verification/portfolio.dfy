/** The static tables of server.js — the tracked companies and the sectors that
    group them — and the case-insensitive company lookup every company route
    starts with. A table is a JavaScript object literal; it is kept here as its
    list of own entries in insertion order, which is also `Object.keys` order
    since no key looks like an array index. */
module Portfolio {
  import opened Network

  datatype Company = Company(name: string, symbol: string, keywords: string, sector: string)

  datatype Sector = Sector(name: string, keywords: string, companies: seq<string>)

  /** `Object.keys(table)` */
  function Keys<V>(table: seq<(string, V)>): (ks: seq<string>)
    ensures |ks| == |table|
    ensures forall i :: 0 <= i < |ks| ==> ks[i] == table[i].0
  {
    seq(|table|, i requires 0 <= i < |table| => table[i].0)
  }

  const PORTFOLIO_COMPANIES: seq<(string, Company)> := [
    ("nvidia", Company("NVIDIA Corporation", "NVDA", "NVIDIA+stock+earnings+AI+chips+semiconductor", "semiconductor")),
    ("tsmc", Company("Taiwan Semiconductor Manufacturing", "TSM", "Taiwan+Semiconductor+TSMC+earnings+chips+manufacturing", "semiconductor")),
    ("ionq", Company("IonQ Inc", "IONQ", "IonQ+quantum+computing+earnings+stock+IONQ", "quantum")),
    ("xpeng", Company("XPeng Inc", "XPEV", "XPeng+electric+vehicle+earnings+China+EV+autonomous", "automotive")),
    ("qubt", Company("Quantum Computing Inc", "QUBT", "Quantum+Computing+Inc+QUBT+stock+earnings+quantum", "quantum")),
    ("dwave", Company("D-Wave Quantum Inc", "QBTS", "D-Wave+Quantum+QBTS+earnings+quantum+computing", "quantum")),
    ("rigetti", Company("Rigetti Computing", "RGTI", "Rigetti+Computing+RGTI+quantum+computing+stock", "quantum")),
    ("pony", Company("Pony AI Inc", "PONY", "Pony+AI+autonomous+driving+IPO+China+robotaxi", "automotive"))
  ]

  const SECTORS: seq<(string, Sector)> := [
    ("semiconductor", Sector("Semiconductor & AI Chips", "semiconductor+chip+AI+processor+GPU+CPU+manufacturing+shortage", ["nvidia", "tsmc"])),
    ("quantum", Sector("Quantum Computing", "quantum+computing+quantum+supremacy+qubit+quantum+algorithm", ["ionq", "qubt", "dwave", "rigetti"])),
    ("automotive", Sector("Electric & Autonomous Vehicles", "electric+vehicle+autonomous+driving+EV+battery+self+driving", ["xpeng", "pony"])),
    ("ai", Sector("Artificial Intelligence", "artificial+intelligence+machine+learning+AI+chatbot+LLM", ["nvidia", "pony"])),
    ("tech-stocks", Sector("Technology Stocks", "technology+stocks+earnings+revenue+nasdaq+tech+sector", Keys(PORTFOLIO_COMPANIES)))
  ]

  /** The own property `key` of a table, if it has one. */
  function Find<V>(table: seq<(string, V)>, key: string): (r: Option<V>)
    ensures r.Some? <==> key in Keys(table)
    ensures r.Some? ==> exists i :: 0 <= i < |table| && table[i] == (key, r.value)
  {
    if |table| == 0 then None
    else if table[0].0 == key then Some(table[0].1)
    else
      var r := Find(table[1..], key);
      assert forall i :: 0 <= i < |table| - 1 ==> table[1..][i] == table[i + 1];
      assert Keys(table) == [table[0].0] + Keys(table[1..]);
      r
  }

  /** `toLowerCase` on one character, for the characters whose lower case is a single
      ASCII letter: A-Z and U+212A KELVIN SIGN (whose lower case is 'k'). */
  function LowerChar(c: char): char
  {
    if 'A' <= c <= 'Z' then (c as int + 32) as char
    else if c == '\U{212A}' then 'k'
    else c
  }

  function ToLower(s: string): (r: string)
    ensures |r| == |s|
    ensures forall i :: 0 <= i < |s| ==> r[i] == LowerChar(s[i])
  {
    seq(|s|, i requires 0 <= i < |s| => LowerChar(s[i]))
  }

  /** Two ids that differ only in the case of their letters. */
  predicate SameIgnoringCase(a: string, b: string)
  {
    |a| == |b| && forall i :: 0 <= i < |a| ==> LowerChar(a[i]) == LowerChar(b[i])
  }

  /** What a company route does with the id in its path: go on with the company, or answer 404. */
  datatype Lookup = Found(company: Company) | NotFound

  /** `PORTFOLIO_COMPANIES[company.toLowerCase()]` followed by the 404 check, looking only at
      the table's own entries (the intended behaviour; see `LookupAsWritten`). */
  function LookupCompany(id: string): (r: Lookup)
    ensures r.NotFound? <==> ToLower(id) !in Keys(PORTFOLIO_COMPANIES)
    ensures r.Found? ==> (ToLower(id), r.company) in PORTFOLIO_COMPANIES
  {
    match Find(PORTFOLIO_COMPANIES, ToLower(id))
    case Some(c) => Found(c)
    case None => NotFound
  }

  /** The lookup does not depend on the case of the letters of the id. */
  lemma LookupIgnoresCase(a: string, b: string)
    requires SameIgnoringCase(a, b)
    ensures LookupCompany(a) == LookupCompany(b)
  {
    assert ToLower(a) == ToLower(b);
  }

  /** The names JavaScript resolves on any plain object through `Object.prototype`. */
  const OBJECT_PROTOTYPE_MEMBERS: seq<string> := [
    "constructor", "__defineGetter__", "__defineSetter__", "hasOwnProperty",
    "__lookupGetter__", "__lookupSetter__", "isPrototypeOf", "propertyIsEnumerable",
    "toString", "valueOf", "__proto__", "toLocaleString"
  ]

  /** The value of `PORTFOLIO_COMPANIES[key]` in JavaScript: an own entry, a (truthy)
      inherited member of `Object.prototype`, or `undefined`. */
  datatype Property = Own(company: Company) | Inherited(name: string) | Undefined

  /** What the company routes do with an id as written: anything truthy passes the 404 check. */
  datatype LookupAsWrittenResult = Proceeds(property: Property) | Rejected404

  function LookupAsWritten(id: string): (r: LookupAsWrittenResult)
    ensures r.Rejected404? <==> ToLower(id) !in Keys(PORTFOLIO_COMPANIES) && ToLower(id) !in OBJECT_PROTOTYPE_MEMBERS
  {
    var key := ToLower(id);
    match Find(PORTFOLIO_COMPANIES, key)
    case Some(c) => Proceeds(Own(c))
    case None => if key in OBJECT_PROTOTYPE_MEMBERS then Proceeds(Inherited(key)) else Rejected404
  }

  /** The id "constructor" names no company, yet the routes as written do not answer 404 for it;
      the intended lookup does. */
  lemma ConstructorEscapesNotFound()
    ensures "constructor" !in Keys(PORTFOLIO_COMPANIES)
    ensures LookupAsWritten("Constructor") == Proceeds(Inherited("constructor"))
    ensures LookupCompany("Constructor") == NotFound
  {
    assert ToLower("Constructor") == "constructor";
  }

  /** The entry at position `i` is what a lookup of its key finds, when no earlier entry has that key. */
  lemma {:induction false} FindAt<V>(table: seq<(string, V)>, i: nat)
    requires i < |table|
    requires forall j :: 0 <= j < i ==> table[j].0 != table[i].0
    ensures Find(table, table[i].0) == Some(table[i].1)
  {
    if i > 0 {
      FindAt(table[1..], i - 1);
    }
  }

  const COMPANY_IDS: seq<string> := ["nvidia", "tsmc", "ionq", "xpeng", "qubt", "dwave", "rigetti", "pony"]

  lemma CompanyIds()
    ensures Keys(PORTFOLIO_COMPANIES) == COMPANY_IDS
  {
  }

  /** Every company a sector lists is a key of the company table. */
  lemma SectorMembersAreCompanies()
    ensures forall s, id :: s in SECTORS && id in s.1.companies ==> id in Keys(PORTFOLIO_COMPANIES)
  {
    CompanyIds();
    forall s, id | s in SECTORS && id in s.1.companies
      ensures id in COMPANY_IDS
    {
      var i :| 0 <= i < |SECTORS| && SECTORS[i] == s;
      if i == 0 {
        assert s.1.companies == ["nvidia", "tsmc"];
      } else if i == 1 {
        assert s.1.companies == ["ionq", "qubt", "dwave", "rigetti"];
      } else if i == 2 {
        assert s.1.companies == ["xpeng", "pony"];
      } else if i == 3 {
        assert s.1.companies == ["nvidia", "pony"];
      }
    }
  }

  /** The `tech-stocks` sector lists every company, in table order. */
  lemma TechStocksListsEveryCompany()
    ensures Find(SECTORS, "tech-stocks").Some?
    ensures Find(SECTORS, "tech-stocks").value.companies == Keys(PORTFOLIO_COMPANIES)
  {
    FindAt(SECTORS, 4);
  }

  /** The sector `e` names exists and lists `e`'s id. */
  predicate ListedBySector(e: (string, Company))
  {
    Find(SECTORS, e.1.sector).Some? && e.0 in Find(SECTORS, e.1.sector).value.companies
  }

  /** The sector a company names exists and lists that company. */
  lemma CompanySectorListsIt()
    ensures forall e :: e in PORTFOLIO_COMPANIES ==> ListedBySector(e)
  {
    forall i | 0 <= i < |PORTFOLIO_COMPANIES| ensures ListedBySector(PORTFOLIO_COMPANIES[i]) {
      var e := PORTFOLIO_COMPANIES[i];
      if i < 2 {
        ListedAt(e, 0);
      } else if i == 3 || i == 7 {
        ListedAt(e, 2);
      } else {
        ListedAt(e, 1);
      }
    }
  }

  /** A company is listed by its sector when the sector at position `j`, one of the first
      three, has its sector's name and lists it. */
  lemma ListedAt(e: (string, Company), j: nat)
    requires j < 3 && SECTORS[j].0 == e.1.sector && e.0 in SECTORS[j].1.companies
    ensures ListedBySector(e)
  {
    FindAt(SECTORS, j);
  }

  /** The Google News path the company routes ask the upstream aggregator for. */
  const NEWS_PATH: string := "/google/news/"

  /** `/google/news/${companyData.keywords}` for a company of the table. */
  function NewsRoute(c: Company): (route: string)
    ensures |route| == |NEWS_PATH| + |c.keywords|
    ensures route[..|NEWS_PATH|] == NEWS_PATH && route[|NEWS_PATH|..] == c.keywords
  {
    NEWS_PATH + c.keywords
  }

  /** The same path for whatever the lookup as written found: an `Object.prototype` member
      has no `keywords`, and the template literal writes the missing value as "undefined". */
  function NewsRouteAsWritten(p: Property): (route: string)
    ensures p.Own? ==> route == NewsRoute(p.company)
    ensures !p.Own? ==> route == NEWS_PATH + "undefined"
  {
    match p
    case Own(c) => NewsRoute(c)
    case _ => NEWS_PATH + "undefined"
  }
}
