/**
 * What a connection attempt may try: passwords, and (base, root, auth) combinations
 * (application/services/connect_service.py:83-162, 672-704; infra/network/probe.py:10-66).
 */
module ConnectPlan {
  import opened Distinct
  import opened Tasks
  import opened Text

  datatype Combo = Combo(base: string, root: string, auth: string)

  datatype Settings = Settings(defaultPassword: string, ttaPassword: string)

  /** The stripped, non-blank items, each at its first place. */
  function Uniques(items: seq<string>): (out: seq<string>)
    ensures NoRepeats(out) && "" !in out
  {
    FirstOccurrencesAreTheItems(NonBlank(items));
    InNonBlank(items, "");
    FirstOccurrences(NonBlank(items))
  }

  /** They are exactly the items, stripped, that are not blank. */
  lemma UniquesAreTheItems(items: seq<string>, value: string)
    ensures value in Uniques(items) <==> value != "" && exists i :: 0 <= i < |items| && Strip(items[i]) == value
  {
    FirstOccurrencesAreTheItems(NonBlank(items));
    InNonBlank(items, value);
  }

  /** Adding an item keeps what is there, in place. */
  lemma UniquesGrow(items: seq<string>, n: nat)
    requires n <= |items|
    ensures Uniques(items[..n]) <= Uniques(items)
  {
    assert items == items[..n] + items[n..];
    NonBlankConcat(items[..n], items[n..]);
    var kept := |NonBlank(items[..n])|;
    assert NonBlank(items)[..kept] == NonBlank(items[..n]);
    FirstOccurrencesGrow(NonBlank(items), kept);
  }

  lemma UniquesNext(items: seq<string>, i: nat)
    requires i < |items|
    ensures var before, value := Uniques(items[..i]), Strip(items[i]);
            Uniques(items[..i + 1]) == if value == "" || value in before then before else before + [value]
  {
    hide Strip, NoRepeats;
    assert items[..i + 1] == items[..i] + [items[i]];
    NonBlankConcat(items[..i], [items[i]]);
    var kept, value := NonBlank(items[..i]), Strip(items[i]);
    if value != "" {
      assert NonBlank(items[..i + 1]) == kept + [value];
      assert (kept + [value])[..|kept|] == kept;
    } else {
      assert NonBlank(items[..i + 1]) == kept;
    }
  }

  /** `_unique_keep_order` */
  method UniqueKeepOrder(items: seq<string>) returns (out: seq<string>)
    ensures out == Uniques(items)
  {
    hide Strip;
    out := [];
    for i := 0 to |items|
      invariant out == Uniques(items[..i])
    {
      UniquesNext(items, i);
      var value := Strip(items[i]);
      if value != "" && value !in out {
        out := out + [value];
      }
    }
    assert items[..|items|] == items;
  }

  // ----- Passwords ----------------------------------------------------------------------------------

  /** The passwords of `_is_factory_reset_password`. */
  const FACTORY_PASSWORDS: seq<string> := ["1234", "admin"]

  function OrElse(s: string, other: string): string {
    if s == "" then other else s
  }

  /** The passwords to try for what was entered. */
  ghost predicate MayTry(password: string, settings: Settings, candidates: seq<string>) {
    match Strip(password)
    case "1234" => candidates == ["1234", "admin"]
    case "admin" => candidates == ["admin", "1234"]
    case "" =>
      candidates == Uniques(["1234", "admin",
                             if settings.defaultPassword == "" then "123" else settings.defaultPassword,
                             if settings.ttaPassword == "" then "!camera1108" else settings.ttaPassword,
                             "!Camera1108"])
    case raw => candidates == [raw]
  }

  /** `_candidate_passwords`: what to try, and whether changing the password is allowed. */
  method CandidatePasswords(password: string, settings: Settings) returns (candidates: seq<string>, recovery: bool)
    ensures NoRepeats(candidates) && "" !in candidates
    ensures MayTry(password, settings, candidates)
    ensures recovery <==> Strip(password) == "1234" || Strip(password) == "admin"
    ensures recovery ==> candidates[0] == Strip(password) && forall c :: c in candidates <==> c in FACTORY_PASSWORDS
    ensures Strip(password) == "" ==> |candidates| >= 3 && candidates[..2] == FACTORY_PASSWORDS
    ensures Strip(password) == "" ==>
              forall c :: c in candidates <==> c != "" && exists i :: 0 <= i < 5 && Strip(Fallbacks(settings)[i]) == c
  {
    hide Strip;
    var raw := Strip(password);
    if raw in FACTORY_PASSWORDS {
      if raw == "admin" {
        return ["admin", "1234"], true;
      }
      return ["1234", "admin"], true;
    }
    if raw != "" {
      return [raw], false;
    }
    var items := Fallbacks(settings);
    FallbacksBegin(settings);
    candidates := UniqueKeepOrder(items);
    recovery := false;
    forall c ensures c in candidates <==> c != "" && exists i :: 0 <= i < 5 && Strip(Fallbacks(settings)[i]) == c {
      UniquesAreTheItems(items, c);
    }
  }

  /** What is tried when no password was entered. */
  function Fallbacks(settings: Settings): seq<string> {
    ["1234", "admin", OrElse(settings.defaultPassword, "123"), OrElse(settings.ttaPassword, "!camera1108"),
     "!Camera1108"]
  }

  lemma FallbacksBegin(settings: Settings)
    ensures |Uniques(Fallbacks(settings))| >= 3 && Uniques(Fallbacks(settings))[..2] == FACTORY_PASSWORDS
  {
    hide Strip, Uniques, NoRepeats;
    var items := Fallbacks(settings);
    Literals();
    FactoryUniques();
    assert items[..2] == FACTORY_PASSWORDS;
    UniquesGrow(items, 2);
    UniquesAreTheItems(items, "!Camera1108");
    assert items[4] == "!Camera1108";
    OutsideThePrefix(FACTORY_PASSWORDS, Uniques(items), "!Camera1108");
  }

  lemma FactoryUniques()
    ensures Uniques(FACTORY_PASSWORDS) == FACTORY_PASSWORDS
  {
    hide Strip;
    Literals();
    assert FACTORY_PASSWORDS[..1] == ["1234"] && ["1234"][..0] == [];
  }

  lemma OutsideThePrefix(a: seq<string>, b: seq<string>, x: string)
    requires a <= b && x in b && x !in a
    ensures |b| >= |a| + 1
  {
    assert |b| == |a| ==> b == a;
  }

  lemma Literals()
    ensures Strip("1234") == "1234" && Strip("admin") == "admin" && Strip("!Camera1108") == "!Camera1108"
  {
  }

  // ----- Addresses ----------------------------------------------------------------------------------

  /** A port number as text. */
  function Decimal(n: nat): string {
    if n < 10 then [('0' as int + n) as char] else Decimal(n / 10) + [('0' as int + n % 10) as char]
  }

  function Address(scheme: string, ip: string, port: nat): string {
    scheme + "://" + ip + ":" + Decimal(port)
  }

  /**
   * `build_base_candidates`: the given port first, then 443 and 80, each with its likelier scheme first.
   * Neither an address nor a root is ever empty, so leaving out empty candidates changes nothing.
   */
  function BaseCandidates(ip: string, port: int): seq<string> {
    FirstOccurrences(AddressesOf(ip, Ports(port)))
  }

  function Ports(port: int): seq<nat> {
    if port <= 0 then [443, 80]
    else [port] + (if port == 443 then [] else [443]) + (if port == 80 then [] else [80])
  }

  function AddressesOf(ip: string, ports: seq<nat>): seq<string> {
    if ports == [] then []
    else
      (if ports[0] == 443 || ports[0] == 8443
       then [Address("https", ip, ports[0]), Address("http", ip, ports[0])]
       else [Address("http", ip, ports[0]), Address("https", ip, ports[0])])
      + AddressesOf(ip, ports[1..])
  }

  lemma {:induction false} InAddresses(ip: string, ports: seq<nat>, value: string)
    ensures value in AddressesOf(ip, ports)
            <==> exists p :: p in ports && (value == Address("http", ip, p) || value == Address("https", ip, p))
  {
    hide Address;
    if ports == [] {
    } else {
      InAddresses(ip, ports[1..], value);
      assert ports == [ports[0]] + ports[1..];
    }
  }

  /** The bases are http and https on the given port, if any, on 443 and on 80, and nothing else. */
  lemma BasesAreCovered(ip: string, port: int, value: string)
    ensures value in BaseCandidates(ip, port)
            <==> exists p: nat :: (p == 443 || p == 80 || (p == port && port > 0))
                   && (value == Address("http", ip, p) || value == Address("https", ip, p))
  {
    hide Address, FirstOccurrences, AddressesOf;
    FirstOccurrencesAreTheItems(AddressesOf(ip, Ports(port)));
    InAddresses(ip, Ports(port), value);
    forall p: nat ensures p in Ports(port) <==> p == 443 || p == 80 || (p == port && port > 0) {
    }
    forall p: nat ensures Address("http", ip, p) != "" && Address("https", ip, p) != "" {
      AddressNotEmpty("http", ip, p);
      AddressNotEmpty("https", ip, p);
    }
  }

  lemma AddressNotEmpty(scheme: string, ip: string, port: nat)
    ensures Address(scheme, ip, port) != ""
  {
    assert ":" != "";
  }

  /** The number that a string of digits stands for. */
  function ValueOf(s: string): int {
    if s == "" then 0 else ValueOf(s[..|s| - 1]) * 10 + (s[|s| - 1] as int - '0' as int)
  }

  lemma {:induction false} DecimalReadsBack(n: nat)
    ensures Decimal(n) != "" && ValueOf(Decimal(n)) == n && forall c :: c in Decimal(n) ==> '0' <= c <= '9'
  {
    var last := ('0' as int + n % 10) as char;
    if n < 10 {
      assert Decimal(n) == [last] && [last][..0] == "";
      assert ValueOf("") == 0;
    } else {
      DecimalReadsBack(n / 10);
      assert Decimal(n) == Decimal(n / 10) + [last];
      assert Decimal(n)[..|Decimal(n)| - 1] == Decimal(n / 10);
    }
  }

  /** Which bases come in which order: the given port before 443 and 80, https before http on 443 and 8443. */
  lemma BasesInOrder(ip: string, port: int)
    ensures BaseCandidates(ip, port) ==
            if port <= 0 || port == 443 then Both("https", "http", ip, "443") + Both("http", "https", ip, "80")
            else if port == 80 then Both("http", "https", ip, "80") + Both("https", "http", ip, "443")
            else (if port == 8443 then Both("https", "http", ip, "8443") else Both("http", "https", ip, Decimal(port)))
                 + Both("https", "http", ip, "443") + Both("http", "https", ip, "80")
  {
    hide FirstOccurrences, Decimal, AddressesOf, Both;
    SmallDecimals();
    if port <= 0 || port == 443 {
      assert Ports(port) == [443, 80];
      TwoPorts(ip, 443, 80);
    } else if port == 80 {
      assert Ports(port) == [80, 443];
      TwoPorts(ip, 80, 443);
    } else {
      assert Ports(port) == [port, 443, 80];
      ThreePorts(ip, port, 443, 80);
    }
  }

  /** Two addresses that differ in the scheme. */
  function Both(first: string, second: string, ip: string, port: string): seq<string> {
    [first + "://" + ip + ":" + port, second + "://" + ip + ":" + port]
  }

  function BothOn(ip: string, n: nat): seq<string> {
    if n == 443 || n == 8443 then Both("https", "http", ip, Decimal(n)) else Both("http", "https", ip, Decimal(n))
  }

  lemma AddressesNext(ip: string, ports: seq<nat>)
    requires ports != []
    ensures AddressesOf(ip, ports) == BothOn(ip, ports[0]) + AddressesOf(ip, ports[1..])
    ensures AddressesOf(ip, []) == []
  {
    hide Decimal;
  }

  lemma TwoPorts(ip: string, m: nat, n: nat)
    requires m != n
    ensures FirstOccurrences(AddressesOf(ip, [m, n])) == BothOn(ip, m) + BothOn(ip, n)
  {
    hide AddressesOf, BothOn, FirstOccurrences, NoRepeats;
    assert [m, n][1..] == [n] && [n][1..] == [];
    AddressesNext(ip, [m, n]);
    AddressesNext(ip, [n]);
    OnPortOnce(ip, m);
    OnPortOnce(ip, n);
    OnPortsDiffer(ip, m, n);
    NoRepeatsConcat(BothOn(ip, m), BothOn(ip, n));
    FirstOccurrencesOfDistinct(BothOn(ip, m) + BothOn(ip, n));
    assert BothOn(ip, n) + [] == BothOn(ip, n);
  }

  lemma ThreePorts(ip: string, m: nat, n: nat, k: nat)
    requires m != n && m != k && n != k
    ensures FirstOccurrences(AddressesOf(ip, [m, n, k])) == BothOn(ip, m) + BothOn(ip, n) + BothOn(ip, k)
  {
    hide AddressesOf, BothOn, FirstOccurrences, NoRepeats;
    assert [m, n, k][1..] == [n, k] && [n, k][1..] == [k] && [k][1..] == [];
    AddressesNext(ip, [m, n, k]);
    AddressesNext(ip, [n, k]);
    AddressesNext(ip, [k]);
    OnPortOnce(ip, m);
    OnPortOnce(ip, n);
    OnPortOnce(ip, k);
    OnPortsDiffer(ip, m, n);
    OnPortsDiffer(ip, m, k);
    OnPortsDiffer(ip, n, k);
    NoRepeatsConcat(BothOn(ip, m), BothOn(ip, n));
    NoRepeatsConcat(BothOn(ip, m) + BothOn(ip, n), BothOn(ip, k));
    FirstOccurrencesOfDistinct(BothOn(ip, m) + BothOn(ip, n) + BothOn(ip, k));
    assert BothOn(ip, m) + (BothOn(ip, n) + (BothOn(ip, k) + [])) == BothOn(ip, m) + BothOn(ip, n) + BothOn(ip, k);
  }

  lemma OnPortOnce(ip: string, n: nat)
    ensures NoRepeats(BothOn(ip, n))
  {
    hide Decimal;
    SchemeShows("http", "https", ip, n, n);
  }

  lemma OnPortsDiffer(ip: string, m: nat, n: nat)
    requires m != n
    ensures forall x :: x in BothOn(ip, m) ==> x !in BothOn(ip, n)
  {
    hide Decimal;
    AddressesDiffer(ip, m, n);
  }

  lemma SmallDecimals()
    ensures Decimal(80) == "80" && Decimal(443) == "443" && Decimal(8443) == "8443"
  {
  }

  /** Addresses on different ports, or with different schemes, are different. */
  lemma AddressesDiffer(ip: string, m: nat, n: nat)
    requires m != n
    ensures Address("http", ip, m) != Address("http", ip, n) && Address("https", ip, m) != Address("https", ip, n)
    ensures Address("http", ip, m) != Address("https", ip, n) && Address("https", ip, m) != Address("http", ip, n)
    ensures Address("http", ip, m) != Address("https", ip, m) && Address("http", ip, n) != Address("https", ip, n)
  {
    hide Decimal;
    DecimalReadsBack(m);
    DecimalReadsBack(n);
    SchemeShows("http", "https", ip, m, n);
    SchemeShows("http", "https", ip, n, m);
    SchemeShows("http", "https", ip, m, m);
    SchemeShows("http", "https", ip, n, n);
    PortShows("http", ip, m);
    PortShows("https", ip, m);
    PortShows("http", ip, n);
    PortShows("https", ip, n);
  }

  lemma SchemeShows(s: string, t: string, ip: string, m: nat, n: nat)
    requires s == "http" && t == "https"
    ensures Address(s, ip, m) != Address(t, ip, n)
  {
    hide Decimal;
    assert Address(s, ip, m)[4] == ':' && Address(t, ip, n)[4] == 's';
  }

  lemma PortShows(scheme: string, ip: string, n: nat)
    ensures var k := |scheme| + 3 + |ip| + 1;
            |Address(scheme, ip, n)| >= k && Address(scheme, ip, n)[k..] == Decimal(n)
  {
    hide Decimal;
    var front := scheme + "://" + ip + ":";
    assert Address(scheme, ip, n) == front + Decimal(n);
  }

  /** The flavour that a root stands for. */
  function FlavorOf(root: string): string {
    if root == "/httpapx/" then "tta" else "legacy"
  }

  /** `_normalize_root` */
  function NormalizeRoot(root: string): (r: string)
    ensures r != ""
  {
    var value := Strip(root);
    if value == "" then "/httpapi/"
    else
      var led := if value[0] == '/' then value else "/" + value;
      if led[|led| - 1] == '/' then led else led + "/"
  }

  /** `build_root_candidates`, for the root that the probe found, or "". */
  function RootCandidates(preferred: string): seq<string> {
    FirstOccurrences([NormalizeRoot(preferred), "/httpapi/", "/httpapx/"])
  }

  /** The root of the probe comes first, and then the two known ones. */
  lemma RootsInOrder(preferred: string)
    ensures var r := NormalizeRoot(preferred);
            RootCandidates(preferred) == [r] + Except(["/httpapi/", "/httpapx/"], r)
  {
    hide NormalizeRoot, FirstOccurrences, Except;
    var r, others := NormalizeRoot(preferred), ["/httpapi/", "/httpapx/"];
    assert others[0][7] != others[1][7];
    FirstOccurrencesCons(r, others);
    assert [r] + others == [r, "/httpapi/", "/httpapx/"];
  }

  /** A normalized root is the root, stripped, between slashes; a blank one is the usual root. */
  lemma NormalizedRoot(root: string)
    ensures var r, value := NormalizeRoot(root), Strip(root);
            if value == "" then r == "/httpapi/"
            else
              && r[0] == '/' && r[|r| - 1] == '/'
              && (value[0] == '/' && value[|value| - 1] == '/' ==> r == value)
              && (value[0] == '/' && value[|value| - 1] != '/' ==> r == value + "/")
              && (value[0] != '/' && value[|value| - 1] == '/' ==> r == "/" + value)
              && (value[0] != '/' && value[|value| - 1] != '/' ==> r == "/" + value + "/")
  {
    hide Strip;
  }

  // ----- The order of the fallback ------------------------------------------------------------------

  function AuthRow(base: string, root: string, auths: seq<string>, skip: Option<Combo>): seq<Combo> {
    if auths == [] then []
    else (if skip == Some(Combo(base, root, auths[0])) then [] else [Combo(base, root, auths[0])])
         + AuthRow(base, root, auths[1..], skip)
  }

  function RootRows(base: string, roots: seq<string>, auths: seq<string>, skip: Option<Combo>): seq<Combo> {
    if roots == [] then []
    else AuthRow(base, roots[0], auths, skip) + RootRows(base, roots[1..], auths, skip)
  }

  /** Every combination of the candidates but the skipped one, in order. */
  function BaseRows(bases: seq<string>, roots: seq<string>, auths: seq<string>, skip: Option<Combo>): seq<Combo> {
    if bases == [] then []
    else RootRows(bases[0], roots, auths, skip) + BaseRows(bases[1..], roots, auths, skip)
  }

  lemma {:induction false} InAuthRow(base: string, root: string, auths: seq<string>, skip: Option<Combo>, c: Combo)
    ensures c in AuthRow(base, root, auths, skip)
            <==> c.base == base && c.root == root && c.auth in auths && skip != Some(c)
  {
    if auths == [] {
    } else {
      InAuthRow(base, root, auths[1..], skip, c);
      assert auths == [auths[0]] + auths[1..];
    }
  }

  lemma {:induction false} InRootRows(base: string, roots: seq<string>, auths: seq<string>, skip: Option<Combo>,
                                      c: Combo)
    ensures c in RootRows(base, roots, auths, skip)
            <==> c.base == base && c.root in roots && c.auth in auths && skip != Some(c)
  {
    if roots == [] {
    } else {
      InRootRows(base, roots[1..], auths, skip, c);
      InAuthRow(base, roots[0], auths, skip, c);
      assert roots == [roots[0]] + roots[1..];
    }
  }

  /** The fallback covers exactly the combinations of its candidates, but for the one tried before. */
  lemma {:induction false} InBaseRows(bases: seq<string>, roots: seq<string>, auths: seq<string>, skip: Option<Combo>,
                                      c: Combo)
    ensures c in BaseRows(bases, roots, auths, skip)
            <==> c.base in bases && c.root in roots && c.auth in auths && skip != Some(c)
  {
    if bases == [] {
    } else {
      InBaseRows(bases[1..], roots, auths, skip, c);
      InRootRows(bases[0], roots, auths, skip, c);
      assert bases == [bases[0]] + bases[1..];
    }
  }

  lemma {:induction false} AuthRowOnce(base: string, root: string, auths: seq<string>, skip: Option<Combo>)
    requires NoRepeats(auths)
    ensures NoRepeats(AuthRow(base, root, auths, skip))
  {
    hide NoRepeats;
    if auths != [] {
      NoRepeatsTail(auths);
      AuthRowOnce(base, root, auths[1..], skip);
      var c := Combo(base, root, auths[0]);
      InAuthRow(base, root, auths[1..], skip, c);
      SingleOnce(c);
      NoRepeatsConcat(if skip == Some(c) then [] else [c], AuthRow(base, root, auths[1..], skip));
    } else {
      EmptyOnce<Combo>();
    }
  }

  lemma {:induction false} RootRowsOnce(base: string, roots: seq<string>, auths: seq<string>, skip: Option<Combo>)
    requires NoRepeats(roots) && NoRepeats(auths)
    ensures NoRepeats(RootRows(base, roots, auths, skip))
  {
    hide NoRepeats;
    if roots != [] {
      NoRepeatsTail(roots);
      RootRowsOnce(base, roots[1..], auths, skip);
      AuthRowOnce(base, roots[0], auths, skip);
      forall c | c in AuthRow(base, roots[0], auths, skip) ensures c !in RootRows(base, roots[1..], auths, skip) {
        InAuthRow(base, roots[0], auths, skip, c);
        InRootRows(base, roots[1..], auths, skip, c);
      }
      NoRepeatsConcat(AuthRow(base, roots[0], auths, skip), RootRows(base, roots[1..], auths, skip));
    } else {
      EmptyOnce<Combo>();
    }
  }

  /** It tries no combination twice. */
  lemma {:induction false} BaseRowsOnce(bases: seq<string>, roots: seq<string>, auths: seq<string>, skip: Option<Combo>)
    requires NoRepeats(bases) && NoRepeats(roots) && NoRepeats(auths)
    ensures NoRepeats(BaseRows(bases, roots, auths, skip))
  {
    hide NoRepeats;
    if bases != [] {
      NoRepeatsTail(bases);
      BaseRowsOnce(bases[1..], roots, auths, skip);
      RootRowsOnce(bases[0], roots, auths, skip);
      forall c | c in RootRows(bases[0], roots, auths, skip) ensures c !in BaseRows(bases[1..], roots, auths, skip) {
        InRootRows(bases[0], roots, auths, skip, c);
        InBaseRows(bases[1..], roots, auths, skip, c);
      }
      NoRepeatsConcat(RootRows(bases[0], roots, auths, skip), BaseRows(bases[1..], roots, auths, skip));
    } else {
      EmptyOnce<Combo>();
    }
  }

  // ----- The plan of a search -----------------------------------------------------------------------

  /** What the probe found. */
  datatype Probed = Probed(combo: Combo, flavor: string)

  /** The auth schemes of the fallback, the probed one first. */
  function AuthCandidates(probe: Option<Probed>): seq<string> {
    Uniques([if probe.Some? then probe.value.combo.auth else "", "digest", "basic", "none"])
  }

  /** The combination not to try again: the probed one, unless one of its parts is empty. */
  function Skip(probe: Option<Probed>): Option<Combo> {
    if probe.Some? && probe.value.combo.base != "" && probe.value.combo.root != "" && probe.value.combo.auth != ""
    then Some(probe.value.combo) else None
  }

  /** The combinations of the fallback, in order. */
  function FallbackPlan(ip: string, port: int, probe: Option<Probed>): seq<Combo> {
    BaseRows(BaseCandidates(ip, port), RootCandidates(if probe.Some? then probe.value.combo.root else ""),
             AuthCandidates(probe), Skip(probe))
  }

  /** Everything a search may try, in order. */
  function Plan(ip: string, port: int, probe: Option<Probed>): seq<Combo> {
    (if probe.Some? then [probe.value.combo] else []) + FallbackPlan(ip, port, probe)
  }

  /** No combination is in the plan twice. */
  lemma PlanHasNoRepeats(ip: string, port: int, probe: Option<Probed>)
    ensures NoRepeats(Plan(ip, port, probe))
  {
    hide BaseRows, BaseCandidates, RootCandidates, Uniques, NoRepeats;
    var bases := BaseCandidates(ip, port);
    var roots := RootCandidates(if probe.Some? then probe.value.combo.root else "");
    var auths := AuthCandidates(probe);
    CandidatesOnce(ip, port, if probe.Some? then probe.value.combo.root else "");
    BaseRowsOnce(bases, roots, auths, Skip(probe));
    if probe.Some? {
      var c := probe.value.combo;
      InBaseRows(bases, roots, auths, Skip(probe), c);
      SingleOnce(c);
      NoRepeatsConcat([c], FallbackPlan(ip, port, probe));
    } else {
      assert Plan(ip, port, probe) == FallbackPlan(ip, port, probe);
    }
  }

  lemma CandidatesOnce(ip: string, port: int, root: string)
    ensures NoRepeats(BaseCandidates(ip, port)) && "" !in BaseCandidates(ip, port)
    ensures NoRepeats(RootCandidates(root)) && "" !in RootCandidates(root)
  {
    hide Address, AddressesOf, NormalizeRoot, NoRepeats, FirstOccurrences;
    FirstOccurrencesAreTheItems(AddressesOf(ip, Ports(port)));
    FirstOccurrencesAreTheItems([NormalizeRoot(root), "/httpapi/", "/httpapx/"]);
    BasesAreCovered(ip, port, "");
    forall p: nat ensures Address("http", ip, p) != "" && Address("https", ip, p) != "" {
      AddressNotEmpty("http", ip, p);
      AddressNotEmpty("https", ip, p);
    }
  }

  lemma PlanIsNotEmpty(ip: string, port: int)
    ensures FallbackPlan(ip, port, None) != []
  {
    hide Uniques, NormalizeRoot, Address, FirstOccurrences, BaseRows;
    var bases, roots, auths := BaseCandidates(ip, port), RootCandidates(""), AuthCandidates(None);
    BasesAreCovered(ip, port, Address("https", ip, 443));
    FirstOccurrencesAreTheItems([NormalizeRoot(""), "/httpapi/", "/httpapx/"]);
    assert "/httpapi/" in [NormalizeRoot(""), "/httpapi/", "/httpapx/"];
    assert Strip("digest") == "digest";
    var items := ["", "digest", "basic", "none"];
    UniquesAreTheItems(items, "digest");
    assert items[1] == "digest";
    InBaseRows(bases, roots, auths, None, Combo(bases[0], roots[0], "digest"));
  }

  /** The auth scheme of the probe, if there is one, comes first, and then the others: digest, basic, none. */
  lemma AuthsInOrder(probe: Option<Probed>)
    ensures var a := if probe.Some? then Strip(probe.value.combo.auth) else "";
            AuthCandidates(probe) == if a == "" then ["digest", "basic", "none"]
                                     else [a] + Except(["digest", "basic", "none"], a)
  {
    hide StripRight, StripLeft, FirstOccurrences, Except;
    SchemesStrip();
    var first := if probe.Some? then probe.value.combo.auth else "";
    var a, others := Strip(first), ["digest", "basic", "none"];
    var items := [first, "digest", "basic", "none"];
    assert items[1..] == others && items[2..] == ["basic", "none"] && items[3..] == ["none"];
    NonBlankNext(items);
    NonBlankNext(items[1..]);
    NonBlankNext(items[2..]);
    NonBlankNext(items[3..]);
    assert NonBlank(items) == if a == "" then others else [a] + others;
    assert |others[0]| == 6 && |others[1]| == 5 && |others[2]| == 4;
    FirstOccurrencesOfDistinct(others);
    FirstOccurrencesCons(a, others);
  }

  lemma NonBlankNext(items: seq<string>)
    requires items != []
    ensures NonBlank(items) == (if Strip(items[0]) == "" then [] else [Strip(items[0])]) + NonBlank(items[1..])
    ensures NonBlank([]) == []
  {
  }

  lemma SchemesStrip()
    ensures Strip("digest") == "digest" && Strip("basic") == "basic" && Strip("none") == "none" && Strip("") == ""
  {
  }

  /** The plan holds the probed combination and every one of the candidates. */
  lemma PlanCovers(ip: string, port: int, probe: Option<Probed>, c: Combo)
    ensures c in Plan(ip, port, probe) <==>
            || (probe.Some? && c == probe.value.combo)
            || (&& c.base in BaseCandidates(ip, port) && c.auth in AuthCandidates(probe)
                && c.root in RootCandidates(if probe.Some? then probe.value.combo.root else ""))
  {
    hide BaseRows, BaseCandidates, RootCandidates, AuthCandidates;
    InBaseRows(BaseCandidates(ip, port), RootCandidates(if probe.Some? then probe.value.combo.root else ""),
               AuthCandidates(probe), Skip(probe), c);
  }

  /** One item comes before another. */
  ghost predicate Precedes<T>(s: seq<T>, x: T, y: T) {
    exists i, j :: 0 <= i < j < |s| && s[i] == x && s[j] == y
  }

  lemma PrecedesIn<T>(a: seq<T>, b: seq<T>, x: T, y: T)
    ensures Precedes(a, x, y) || Precedes(b, x, y) || (x in a && y in b) ==> Precedes(a + b, x, y)
  {
    if x in a && y in b {
      var i :| 0 <= i < |a| && a[i] == x;
      var j :| 0 <= j < |b| && b[j] == y;
      assert (a + b)[i] == x && (a + b)[|a| + j] == y;
    } else if Precedes(a, x, y) {
      var i, j :| 0 <= i < j < |a| && a[i] == x && a[j] == y;
      assert (a + b)[i] == x && (a + b)[j] == y;
    } else if Precedes(b, x, y) {
      var i, j :| 0 <= i < j < |b| && b[i] == x && b[j] == y;
      assert (a + b)[|a| + i] == x && (a + b)[|a| + j] == y;
    }
  }

  lemma {:induction false} AuthRowInOrder(base: string, root: string, auths: seq<string>, skip: Option<Combo>,
                                          i: nat, j: nat)
    requires i < j < |auths|
    requires skip != Some(Combo(base, root, auths[i])) && skip != Some(Combo(base, root, auths[j]))
    ensures Precedes(AuthRow(base, root, auths, skip), Combo(base, root, auths[i]), Combo(base, root, auths[j]))
  {
    hide Precedes;
    var x, y := Combo(base, root, auths[i]), Combo(base, root, auths[j]);
    var first := if skip == Some(Combo(base, root, auths[0])) then [] else [Combo(base, root, auths[0])];
    PrecedesIn(first, AuthRow(base, root, auths[1..], skip), x, y);
    InAuthRow(base, root, auths[1..], skip, y);
    assert auths[1..][j - 1] == auths[j];
    if i > 0 {
      AuthRowInOrder(base, root, auths[1..], skip, i - 1, j - 1);
    }
  }

  lemma {:induction false} RootRowsInOrder(base: string, roots: seq<string>, auths: seq<string>, skip: Option<Combo>,
                                           r: nat, i: nat, s: nat, j: nat)
    requires r < |roots| && s < |roots| && i < |auths| && j < |auths| && (r < s || (r == s && i < j))
    requires skip != Some(Combo(base, roots[r], auths[i])) && skip != Some(Combo(base, roots[s], auths[j]))
    ensures Precedes(RootRows(base, roots, auths, skip),
                     Combo(base, roots[r], auths[i]), Combo(base, roots[s], auths[j]))
  {
    hide Precedes, AuthRow;
    var x, y := Combo(base, roots[r], auths[i]), Combo(base, roots[s], auths[j]);
    PrecedesIn(AuthRow(base, roots[0], auths, skip), RootRows(base, roots[1..], auths, skip), x, y);
    if s == 0 {
      AuthRowInOrder(base, roots[0], auths, skip, i, j);
    } else if r > 0 {
      RootRowsInOrder(base, roots[1..], auths, skip, r - 1, i, s - 1, j);
    } else {
      InAuthRow(base, roots[0], auths, skip, x);
      InRootRows(base, roots[1..], auths, skip, y);
      assert roots[1..][s - 1] == roots[s];
    }
  }

  /** The fallback goes by base, then by root, then by auth scheme, each in the order of its candidates. */
  lemma {:induction false} BaseRowsInOrder(bases: seq<string>, roots: seq<string>, auths: seq<string>,
                                           skip: Option<Combo>, b: nat, r: nat, i: nat, c: nat, s: nat, j: nat)
    requires b < |bases| && c < |bases| && r < |roots| && s < |roots| && i < |auths| && j < |auths|
    requires b < c || (b == c && (r < s || (r == s && i < j)))
    requires skip != Some(Combo(bases[b], roots[r], auths[i])) && skip != Some(Combo(bases[c], roots[s], auths[j]))
    ensures Precedes(BaseRows(bases, roots, auths, skip),
                     Combo(bases[b], roots[r], auths[i]), Combo(bases[c], roots[s], auths[j]))
  {
    hide Precedes, RootRows;
    var x, y := Combo(bases[b], roots[r], auths[i]), Combo(bases[c], roots[s], auths[j]);
    PrecedesIn(RootRows(bases[0], roots, auths, skip), BaseRows(bases[1..], roots, auths, skip), x, y);
    if c == 0 {
      RootRowsInOrder(bases[0], roots, auths, skip, r, i, s, j);
    } else if b > 0 {
      BaseRowsInOrder(bases[1..], roots, auths, skip, b - 1, r, i, c - 1, s, j);
    } else {
      InRootRows(bases[0], roots, auths, skip, x);
      InBaseRows(bases[1..], roots, auths, skip, y);
      assert bases[1..][c - 1] == bases[c];
    }
  }
}
