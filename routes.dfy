/** How `Initialize_Router` turns the handler tables of the context into router registrations
    and summary lines. The router is the sequence of `HandleFunc` registrations; the summary is
    the sequence of lines added to the route table. Go visits a map's keys in an unspecified
    order, so each loop over a map also returns, as a ghost value, the order it took. */
module Routes {
  import opened Common
  import opened Context

  datatype Kind = Html | Xhr

  /** The handler a `makeHandler_*` call builds, kept as the term that built it. */
  datatype Made =
    | Made(kind: Kind, handler: Handler, authd: bool)   // makeHandler_HTML / makeHandler_XHR(ctx, h, authd)
    | MadeWs(route: WsRoute, authd: bool)              // makeHandler_WS(ctx, &wsr, authd)
    | MadeNotFound(handler: Handler)                   // makeHandler_NotFound(ctx, h)

  /** One `router.HandleFunc(pattern, handler)` call. */
  datatype Registration = Registration(pattern: string, handler: Made)

  /** A gorilla/mux router: its registrations in call order and its NotFound handler. */
  datatype Router = Router(routes: seq<Registration>, notFound: Option<Made>)

  const NewRouter := Router([], None)

  /** A line of the route summary: type, route and the handler it names, or a blank line. */
  datatype SummaryLine = Line(descr: string, route: string, obj: Ref) | Blank

  /** The key orders that the five map loops of `Initialize_Router` took. */
  datatype Orders = Orders(
    htmlPublic: seq<string>,
    htmlAuthd: seq<string>,
    xhrPublic: seq<string>,
    xhrAuthd: seq<string>,
    filePublic: seq<string>)

  // ---------------------------------------------------------------------------------------
  // The registration mapping
  // ---------------------------------------------------------------------------------------

  /** An HTML page's registrations: one per pattern, all sharing one handler. */
  function PageRegistrations(patterns: seq<string>, h: Handler, authd: bool): seq<Registration>
  {
    if |patterns| == 0 then []
    else PageRegistrations(patterns[..|patterns| - 1], h, authd)
         + [Registration(patterns[|patterns| - 1], Made(Html, h, authd))]
  }

  /** Each page of an HTML map with its registrations under all its synonyms. */
  function PageTable(routes: map<string, Handler>, authd: bool, synonyms: string -> seq<string>)
    : map<string, seq<Registration>>
  {
    map r | r in routes :: PageRegistrations(synonyms(r), routes[r], authd)
  }

  /** Each key of an XHR or FILE map with its one registration. */
  function DirectTable(routes: map<string, Handler>, kind: Kind, authd: bool): map<string, seq<Registration>>
  {
    map r | r in routes :: [Registration(r, Made(kind, routes[r], authd))]
  }

  /** Each key of a map group with the one summary line `addSumm` writes for it. */
  function LinesTable(descr: string, routes: map<string, Handler>): map<string, seq<SummaryLine>>
  {
    map r | r in routes :: [Line(descr, r, routes[r])]
  }

  /** One registration per WebSocket route, in slice order. */
  function WsRegistrations(routes: seq<WsRoute>, authd: bool): seq<Registration>
  {
    if |routes| == 0 then []
    else WsRegistrations(routes[..|routes| - 1], authd)
         + [Registration(routes[|routes| - 1].url, MadeWs(routes[|routes| - 1], authd))]
  }

  /** One summary line per WebSocket route, naming its procedures, in slice order. */
  function WsLines(routes: seq<WsRoute>, descr: string): seq<SummaryLine>
  {
    if |routes| == 0 then []
    else WsLines(routes[..|routes| - 1], descr) + [Line(descr, routes[|routes| - 1].url, routes[|routes| - 1].procs)]
  }

  /** The outputs of the keys in `order`, concatenated in that order. */
  function ConcatMap<V>(order: seq<string>, table: map<string, seq<V>>): seq<V>
  {
    if |order| == 0 then []
    else ConcatMap(order[..|order| - 1], table) + Output(table, order[|order| - 1])
  }

  function Output<V>(table: map<string, seq<V>>, k: string): seq<V>
  {
    if k in table then table[k] else []
  }

  /** `order` lists every key of the map exactly once (the last one listed, then the rest). */
  predicate Enumerates(order: seq<string>, keys: set<string>)
  {
    if |order| == 0 then keys == {}
    else
      var last := order[|order| - 1];
      last in keys && Enumerates(order[..|order| - 1], keys - {last})
  }

  predicate ValidOrders(c: Ctx, o: Orders)
  {
    && Enumerates(o.htmlPublic, c.html.public.Keys)
    && Enumerates(o.htmlAuthd, c.html.authd.Keys)
    && Enumerates(o.xhrPublic, c.xhr.public.Keys)
    && Enumerates(o.xhrAuthd, c.xhr.authd.Keys)
    && Enumerates(o.filePublic, c.file.public.Keys)
  }

  /** All registrations of `Initialize_Router`, group by group, for the given key orders.
      FILE routes are served by the HTML handler maker, never behind authentication. */
  function RoutesFor(c: Ctx, synonyms: string -> seq<string>, o: Orders): seq<Registration>
  {
    ConcatMap(o.htmlPublic, PageTable(c.html.public, false, synonyms))
    + ConcatMap(o.htmlAuthd, PageTable(c.html.authd, true, synonyms))
    + ConcatMap(o.xhrPublic, DirectTable(c.xhr.public, Xhr, false))
    + ConcatMap(o.xhrAuthd, DirectTable(c.xhr.authd, Xhr, true))
    + WsRegistrations(c.ws.public, false)
    + WsRegistrations(c.ws.authd, true)
    + ConcatMap(o.filePublic, DirectTable(c.file.public, Html, false))
  }

  const NotFoundRoute := "*"

  /** A group of summary lines appended to the summary, then `summ.AddBlankLine()`. */
  function Group(summ: seq<SummaryLine>, lines: seq<SummaryLine>): seq<SummaryLine>
  {
    summ + lines + [Blank]
  }

  /** The layout of the route summary: seven groups of route lines and the NotFound line, each
      followed by a blank line. */
  function SummaryLayout(g1: seq<SummaryLine>, g2: seq<SummaryLine>, g3: seq<SummaryLine>,
                         g4: seq<SummaryLine>, g5: seq<SummaryLine>, g6: seq<SummaryLine>,
                         g7: seq<SummaryLine>, notFound: SummaryLine): seq<SummaryLine>
  {
    Group(Group(Group(Group(Group(Group(Group(Group([], g1), g2), g3), g4), g5), g6), g7), [notFound])
  }

  /** The summary of `Initialize_Router` for the given key orders. */
  function SummaryFor(c: Ctx, o: Orders): seq<SummaryLine>
  {
    SummaryLayout(
      ConcatMap(o.htmlPublic, LinesTable("HTML Public", c.html.public)),
      ConcatMap(o.htmlAuthd, LinesTable("HTML Authd", c.html.authd)),
      ConcatMap(o.xhrPublic, LinesTable("XHR Public", c.xhr.public)),
      ConcatMap(o.xhrAuthd, LinesTable("XHR Authd", c.xhr.authd)),
      WsLines(c.ws.public, "WS Public"),
      WsLines(c.ws.authd, "WS Authd"),
      ConcatMap(o.filePublic, LinesTable("FILE Public", c.file.public)),
      Line("HTML Not Found", NotFoundRoute, c.html.notFound))
  }

  lemma ConcatMapSnoc<V>(order: seq<string>, k: string, table: map<string, seq<V>>)
    ensures ConcatMap(order + [k], table) == ConcatMap(order, table) + Output(table, k)
  {
    assert (order + [k])[..|order|] == order;
  }

  lemma EnumeratesSnoc(order: seq<string>, done: set<string>, r: string)
    requires Enumerates(order, done) && r !in done
    ensures Enumerates(order + [r], done + {r})
  {
    assert (order + [r])[..|order|] == order;
    assert (done + {r}) - {r} == done;
  }

  /** One more key of a direct group: its registration and its line come last, after the ones
      already appended to `regs` and `lines`. */
  lemma DirectStep(routes: map<string, Handler>, kind: Kind, authd: bool, order: seq<string>,
                   r: string, descr: string, regs: seq<Registration>, lines: seq<SummaryLine>)
    requires r in routes
    ensures regs + ConcatMap(order, DirectTable(routes, kind, authd)) + [Registration(r, Made(kind, routes[r], authd))]
         == regs + ConcatMap(order + [r], DirectTable(routes, kind, authd))
    ensures lines + ConcatMap(order, LinesTable(descr, routes)) + [Line(descr, r, routes[r])]
         == lines + ConcatMap(order + [r], LinesTable(descr, routes))
  {
    ConcatMapSnoc(order, r, DirectTable(routes, kind, authd));
    ConcatMapSnoc(order, r, LinesTable(descr, routes));
  }

  /** One more page: its synonym registrations and its line come last, after the ones already
      appended to `regs` and `lines`. */
  lemma PageStep(routes: map<string, Handler>, authd: bool, synonyms: string -> seq<string>,
                 order: seq<string>, r: string, descr: string,
                 regs: seq<Registration>, lines: seq<SummaryLine>)
    requires r in routes
    ensures regs + ConcatMap(order, PageTable(routes, authd, synonyms))
            + PageRegistrations(synonyms(r), routes[r], authd)
         == regs + ConcatMap(order + [r], PageTable(routes, authd, synonyms))
    ensures lines + ConcatMap(order, LinesTable(descr, routes)) + [Line(descr, r, routes[r])]
         == lines + ConcatMap(order + [r], LinesTable(descr, routes))
  {
    ConcatMapSnoc(order, r, PageTable(routes, authd, synonyms));
    ConcatMapSnoc(order, r, LinesTable(descr, routes));
  }

  // ---------------------------------------------------------------------------------------
  // Properties of the mapping
  // ---------------------------------------------------------------------------------------

  lemma SetToMultisetAdd(keys: set<string>, k: string)
    requires k !in keys
    ensures multiset(keys + {k}) == multiset(keys) + multiset{k}
  {
    forall x ensures multiset(keys + {k})[x] == (multiset(keys) + multiset{k})[x] {
    }
  }

  /** An enumeration lists exactly the keys, each once. */
  lemma {:induction false} EnumeratesMultiset(order: seq<string>, keys: set<string>)
    requires Enumerates(order, keys)
    ensures multiset(order) == multiset(keys)
    ensures forall x :: x in order <==> x in keys
    decreases |order|
  {
    if |order| > 0 {
      var init, last := order[..|order| - 1], order[|order| - 1];
      EnumeratesMultiset(init, keys - {last});
      assert order == init + [last];
      assert keys == (keys - {last}) + {last};
      SetToMultisetAdd(keys - {last}, last);
    }
    forall x ensures x in order <==> x in keys {
      assert x in order <==> x in multiset(order);
    }
  }

  lemma {:induction false} ConcatMapAppend<V>(a: seq<string>, b: seq<string>, table: map<string, seq<V>>)
    ensures ConcatMap(a + b, table) == ConcatMap(a, table) + ConcatMap(b, table)
    decreases |b|
  {
    if |b| == 0 {
      assert a + b == a;
    } else {
      var b', y := b[..|b| - 1], b[|b| - 1];
      assert (a + b)[..|a + b| - 1] == a + b';
      ConcatMapAppend(a, b', table);
    }
  }

  /** Taking the same key out of two permutations leaves two permutations. */
  lemma RemoveMatching(o1: seq<string>, o2: seq<string>, k: nat)
    requires multiset(o1) == multiset(o2) && |o1| > 0
    requires k < |o2| && o2[k] == o1[|o1| - 1]
    ensures multiset(o1[..|o1| - 1]) == multiset(o2[..k] + o2[k + 1..])
  {
    var init, last := o1[..|o1| - 1], o1[|o1| - 1];
    var front, back := o2[..k], o2[k + 1..];
    assert o1 == init + [last];
    assert o2 == front + [last] + back;
    forall x ensures multiset(init)[x] == multiset(front + back)[x] {
      assert multiset(o1)[x] == multiset(init)[x] + multiset{last}[x];
      assert multiset(o2)[x] == multiset(front)[x] + multiset{last}[x] + multiset(back)[x];
    }
  }

  /** The output of an order with one key picked out. */
  lemma ConcatMapAround<V>(front: seq<string>, k: string, back: seq<string>, table: map<string, seq<V>>)
    ensures ConcatMap(front + [k] + back, table)
         == ConcatMap(front, table) + Output(table, k) + ConcatMap(back, table)
  {
    ConcatMapAppend(front + [k], back, table);
    ConcatMapSnoc(front, k, table);
  }

  /** The outputs of two orders listing the same keys are permutations of each other: the
      order in which Go happens to visit a map does not change what is registered. */
  lemma {:induction false} ConcatMapPermutation<V>(o1: seq<string>, o2: seq<string>, table: map<string, seq<V>>)
    requires multiset(o1) == multiset(o2)
    ensures multiset(ConcatMap(o1, table)) == multiset(ConcatMap(o2, table))
    decreases |o1|
  {
    if |o1| == 0 {
      assert |o2| == |multiset(o2)| == 0;
    } else {
      var init, last := o1[..|o1| - 1], o1[|o1| - 1];
      assert last in multiset(o2) by {
        assert o1 == init + [last];
      }
      var k :| 0 <= k < |o2| && o2[k] == last;
      var front, back := o2[..k], o2[k + 1..];
      assert o2 == front + [last] + back;
      RemoveMatching(o1, o2, k);
      ConcatMapPermutation(init, front + back, table);
      ConcatMapAround(front, last, back, table);
      ConcatMapAppend(front, back, table);
    }
  }

  /** Two enumerations of the same keys produce permutations of each other's output. */
  lemma GroupPermutation<V>(o1: seq<string>, o2: seq<string>, keys: set<string>, table: map<string, seq<V>>)
    requires Enumerates(o1, keys) && Enumerates(o2, keys)
    ensures multiset(ConcatMap(o1, table)) == multiset(ConcatMap(o2, table))
  {
    EnumeratesMultiset(o1, keys);
    EnumeratesMultiset(o2, keys);
    ConcatMapPermutation(o1, o2, table);
  }

  /** Whatever key orders the loops took, the router holds the same registrations, counted
      with multiplicity. */
  lemma RoutesOrderIndependent(c: Ctx, synonyms: string -> seq<string>, o1: Orders, o2: Orders)
    requires ValidOrders(c, o1) && ValidOrders(c, o2)
    ensures multiset(RoutesFor(c, synonyms, o1)) == multiset(RoutesFor(c, synonyms, o2))
  {
    var hp, ha := PageTable(c.html.public, false, synonyms), PageTable(c.html.authd, true, synonyms);
    var xp, xa := DirectTable(c.xhr.public, Xhr, false), DirectTable(c.xhr.authd, Xhr, true);
    var fp := DirectTable(c.file.public, Html, false);
    var wp, wa := WsRegistrations(c.ws.public, false), WsRegistrations(c.ws.authd, true);
    GroupPermutation(o1.htmlPublic, o2.htmlPublic, c.html.public.Keys, hp);
    GroupPermutation(o1.htmlAuthd, o2.htmlAuthd, c.html.authd.Keys, ha);
    GroupPermutation(o1.xhrPublic, o2.xhrPublic, c.xhr.public.Keys, xp);
    GroupPermutation(o1.xhrAuthd, o2.xhrAuthd, c.xhr.authd.Keys, xa);
    GroupPermutation(o1.filePublic, o2.filePublic, c.file.public.Keys, fp);
    assert multiset(RoutesFor(c, synonyms, o1))
        == multiset(ConcatMap(o1.htmlPublic, hp)) + multiset(ConcatMap(o1.htmlAuthd, ha))
         + multiset(ConcatMap(o1.xhrPublic, xp)) + multiset(ConcatMap(o1.xhrAuthd, xa))
         + multiset(wp) + multiset(wa) + multiset(ConcatMap(o1.filePublic, fp));
    assert multiset(RoutesFor(c, synonyms, o2))
        == multiset(ConcatMap(o2.htmlPublic, hp)) + multiset(ConcatMap(o2.htmlAuthd, ha))
         + multiset(ConcatMap(o2.xhrPublic, xp)) + multiset(ConcatMap(o2.xhrAuthd, xa))
         + multiset(wp) + multiset(wa) + multiset(ConcatMap(o2.filePublic, fp));
  }

  /** Replacing each group of the layout by a permutation of itself permutes the summary. */
  lemma LayoutPermutation(a1: seq<SummaryLine>, a2: seq<SummaryLine>, a3: seq<SummaryLine>,
                          a4: seq<SummaryLine>, a5: seq<SummaryLine>, a6: seq<SummaryLine>,
                          a7: seq<SummaryLine>,
                          b1: seq<SummaryLine>, b2: seq<SummaryLine>, b3: seq<SummaryLine>,
                          b4: seq<SummaryLine>, b5: seq<SummaryLine>, b6: seq<SummaryLine>,
                          b7: seq<SummaryLine>, nf: SummaryLine)
    requires multiset(a1) == multiset(b1) && multiset(a2) == multiset(b2) && multiset(a3) == multiset(b3)
    requires multiset(a4) == multiset(b4) && multiset(a5) == multiset(b5) && multiset(a6) == multiset(b6)
    requires multiset(a7) == multiset(b7)
    ensures multiset(SummaryLayout(a1, a2, a3, a4, a5, a6, a7, nf))
         == multiset(SummaryLayout(b1, b2, b3, b4, b5, b6, b7, nf))
  {
  }

  /** Likewise the summary holds the same lines whatever the key orders. */
  lemma SummaryOrderIndependent(c: Ctx, o1: Orders, o2: Orders)
    requires ValidOrders(c, o1) && ValidOrders(c, o2)
    ensures multiset(SummaryFor(c, o1)) == multiset(SummaryFor(c, o2))
  {
    var hp, ha := LinesTable("HTML Public", c.html.public), LinesTable("HTML Authd", c.html.authd);
    var xp, xa := LinesTable("XHR Public", c.xhr.public), LinesTable("XHR Authd", c.xhr.authd);
    var fp := LinesTable("FILE Public", c.file.public);
    GroupPermutation(o1.htmlPublic, o2.htmlPublic, c.html.public.Keys, hp);
    GroupPermutation(o1.htmlAuthd, o2.htmlAuthd, c.html.authd.Keys, ha);
    GroupPermutation(o1.xhrPublic, o2.xhrPublic, c.xhr.public.Keys, xp);
    GroupPermutation(o1.xhrAuthd, o2.xhrAuthd, c.xhr.authd.Keys, xa);
    GroupPermutation(o1.filePublic, o2.filePublic, c.file.public.Keys, fp);
    LayoutPermutation(
      ConcatMap(o1.htmlPublic, hp), ConcatMap(o1.htmlAuthd, ha), ConcatMap(o1.xhrPublic, xp),
      ConcatMap(o1.xhrAuthd, xa), WsLines(c.ws.public, "WS Public"), WsLines(c.ws.authd, "WS Authd"),
      ConcatMap(o1.filePublic, fp),
      ConcatMap(o2.htmlPublic, hp), ConcatMap(o2.htmlAuthd, ha), ConcatMap(o2.xhrPublic, xp),
      ConcatMap(o2.xhrAuthd, xa), WsLines(c.ws.public, "WS Public"), WsLines(c.ws.authd, "WS Authd"),
      ConcatMap(o2.filePublic, fp),
      Line("HTML Not Found", NotFoundRoute, c.html.notFound));
  }

  /** Something is output for an order exactly when some key of the order outputs it. */
  lemma {:induction false} ConcatMapMember<V>(order: seq<string>, table: map<string, seq<V>>, x: V)
    ensures x in ConcatMap(order, table) <==> exists i :: 0 <= i < |order| && x in Output(table, order[i])
    decreases |order|
  {
    if |order| > 0 {
      var init := order[..|order| - 1];
      ConcatMapMember(init, table, x);
      if x in ConcatMap(init, table) {
        var i :| 0 <= i < |init| && x in Output(table, init[i]);
        assert order[i] == init[i];
      }
      if exists i :: 0 <= i < |order| && x in Output(table, order[i]) {
        var i :| 0 <= i < |order| && x in Output(table, order[i]);
        if i < |order| - 1 {
          assert init[i] == order[i];
        }
      }
    }
  }

  /** Pattern i of a page's registrations is synonym i, with the page's handler and flag. */
  lemma {:induction false} PageRegistrationsAt(patterns: seq<string>, h: Handler, authd: bool)
    ensures |PageRegistrations(patterns, h, authd)| == |patterns|
    ensures forall i :: 0 <= i < |patterns| ==>
              PageRegistrations(patterns, h, authd)[i] == Registration(patterns[i], Made(Html, h, authd))
    decreases |patterns|
  {
    if |patterns| > 0 {
      PageRegistrationsAt(patterns[..|patterns| - 1], h, authd);
    }
  }

  /** An HTML map group registers exactly the pairs (synonym p of page r, the HTML handler made
      from r's handler with the group's flag). */
  lemma PageGroupMembers(routes: map<string, Handler>, authd: bool, synonyms: string -> seq<string>,
                         order: seq<string>, x: Registration)
    requires Enumerates(order, routes.Keys)
    ensures x in ConcatMap(order, PageTable(routes, authd, synonyms))
        <==> exists r :: r in routes && x.pattern in synonyms(r) && x.handler == Made(Html, routes[r], authd)
  {
    EnumeratesMultiset(order, routes.Keys);
    ConcatMapMember(order, PageTable(routes, authd, synonyms), x);
    if x in ConcatMap(order, PageTable(routes, authd, synonyms)) {
      var i :| 0 <= i < |order| && x in Output(PageTable(routes, authd, synonyms), order[i]);
      var r := order[i];
      PageRegistrationsAt(synonyms(r), routes[r], authd);
      var j :| 0 <= j < |PageRegistrations(synonyms(r), routes[r], authd)|
             && PageRegistrations(synonyms(r), routes[r], authd)[j] == x;
      assert x.pattern == synonyms(r)[j];
    }
    if exists r :: r in routes && x.pattern in synonyms(r) && x.handler == Made(Html, routes[r], authd) {
      var r :| r in routes && x.pattern in synonyms(r) && x.handler == Made(Html, routes[r], authd);
      var i :| 0 <= i < |order| && order[i] == r;
      var j :| 0 <= j < |synonyms(r)| && synonyms(r)[j] == x.pattern;
      PageRegistrationsAt(synonyms(r), routes[r], authd);
      assert PageRegistrations(synonyms(r), routes[r], authd)[j] == x;
    }
  }

  /** A table that gives every key exactly one output, and distinct outputs to distinct keys. */
  ghost predicate OneToOne<V>(table: map<string, seq<V>>)
  {
    (forall k :: k in table ==> |table[k]| == 1)
    && (forall k1, k2 :: k1 in table && k2 in table && table[k1][0] == table[k2][0] ==> k1 == k2)
  }

  /** With a one-to-one table, an output occurs as often as its key occurs in the order. */
  lemma {:induction false} OneToOneCount<V>(order: seq<string>, table: map<string, seq<V>>, k: string)
    requires OneToOne(table) && k in table
    requires forall i :: 0 <= i < |order| ==> order[i] in table
    ensures |ConcatMap(order, table)| == |order|
    ensures multiset(ConcatMap(order, table))[table[k][0]] == multiset(order)[k]
    decreases |order|
  {
    if |order| > 0 {
      var init, last := order[..|order| - 1], order[|order| - 1];
      OneToOneCount(init, table, k);
      assert order == init + [last];
      assert table[last] == [table[last][0]];
    }
  }

  /** A direct (XHR or FILE) group registers each key exactly once, under its own pattern, with
      the handler made from its handler, and nothing else. */
  lemma DirectGroupOnce(routes: map<string, Handler>, kind: Kind, authd: bool, order: seq<string>, r: string)
    requires Enumerates(order, routes.Keys) && r in routes
    ensures |ConcatMap(order, DirectTable(routes, kind, authd))| == |routes|
    ensures multiset(ConcatMap(order, DirectTable(routes, kind, authd)))[Registration(r, Made(kind, routes[r], authd))] == 1
  {
    EnumeratesMultiset(order, routes.Keys);
    var table: map<string, seq<Registration>> := DirectTable(routes, kind, authd);
    assert OneToOne(table) by {
      forall k1, k2 | k1 in table && k2 in table && table[k1][0] == table[k2][0] ensures k1 == k2 {
        assert table[k1][0].pattern == k1;
      }
    }
    OneToOneCount(order, table, r);
    assert |order| == |multiset(order)| == |multiset(routes.Keys)| == |routes.Keys|;
  }

  /** Each map group writes exactly one summary line per key, naming the key itself (the page,
      not its synonyms) and its handler. */
  lemma GroupLinesOnce(routes: map<string, Handler>, descr: string, order: seq<string>, r: string)
    requires Enumerates(order, routes.Keys) && r in routes
    ensures |ConcatMap(order, LinesTable(descr, routes))| == |routes|
    ensures multiset(ConcatMap(order, LinesTable(descr, routes)))[Line(descr, r, routes[r])] == 1
  {
    EnumeratesMultiset(order, routes.Keys);
    var table: map<string, seq<SummaryLine>> := LinesTable(descr, routes);
    assert OneToOne(table) by {
      forall k1, k2 | k1 in table && k2 in table && table[k1][0] == table[k2][0] ensures k1 == k2 {
        assert table[k1][0].route == k1;
      }
    }
    OneToOneCount(order, table, r);
    assert |order| == |multiset(order)| == |multiset(routes.Keys)| == |routes.Keys|;
  }

  /** Registration i of a WebSocket group is route i's URL with the handler made from it. */
  lemma {:induction false} WsRegistrationsAt(routes: seq<WsRoute>, authd: bool)
    ensures |WsRegistrations(routes, authd)| == |routes|
    ensures forall i :: 0 <= i < |routes| ==>
              WsRegistrations(routes, authd)[i] == Registration(routes[i].url, MadeWs(routes[i], authd))
    decreases |routes|
  {
    if |routes| > 0 {
      WsRegistrationsAt(routes[..|routes| - 1], authd);
    }
  }

  /** Summary line i of a WebSocket group names route i's URL and procedures. */
  lemma {:induction false} WsLinesAt(routes: seq<WsRoute>, descr: string)
    ensures |WsLines(routes, descr)| == |routes|
    ensures forall i :: 0 <= i < |routes| ==> WsLines(routes, descr)[i] == Line(descr, routes[i].url, routes[i].procs)
    decreases |routes|
  {
    if |routes| > 0 {
      WsLinesAt(routes[..|routes| - 1], descr);
    }
  }

  /** A map group writes no blank line of its own. */
  lemma {:induction false} NoBlankInGroup(order: seq<string>, descr: string, routes: map<string, Handler>)
    ensures multiset(ConcatMap(order, LinesTable(descr, routes)))[Blank] == 0
    decreases |order|
  {
    if |order| > 0 {
      NoBlankInGroup(order[..|order| - 1], descr, routes);
    }
  }

  /** A WebSocket group writes no blank line of its own. */
  lemma {:induction false} NoBlankInWs(routes: seq<WsRoute>, descr: string)
    ensures multiset(WsLines(routes, descr))[Blank] == 0
    decreases |routes|
  {
    if |routes| > 0 {
      NoBlankInWs(routes[..|routes| - 1], descr);
    }
  }

  /** A group without blank lines adds one blank line. */
  lemma GroupBlanks(summ: seq<SummaryLine>, lines: seq<SummaryLine>, blanks: nat)
    requires multiset(summ)[Blank] == blanks && multiset(lines)[Blank] == 0
    ensures multiset(Group(summ, lines))[Blank] == blanks + 1
  {
  }

  /** A group ends the summary with its last line and a blank line. */
  lemma GroupEnd(summ: seq<SummaryLine>, lines: seq<SummaryLine>)
    ensures var l := Group(summ, lines);
            && |l| == |summ| + |lines| + 1 && l[|l| - 1] == Blank
            && (|lines| > 0 ==> l[|l| - 2] == lines[|lines| - 1])
  {
  }

  lemma LayoutLength(g1: seq<SummaryLine>, g2: seq<SummaryLine>, g3: seq<SummaryLine>, g4: seq<SummaryLine>,
                     g5: seq<SummaryLine>, g6: seq<SummaryLine>, g7: seq<SummaryLine>, nf: SummaryLine)
    ensures |SummaryLayout(g1, g2, g3, g4, g5, g6, g7, nf)| == |g1| + |g2| + |g3| + |g4| + |g5| + |g6| + |g7| + 9
  {
  }

  lemma LayoutEnd(g1: seq<SummaryLine>, g2: seq<SummaryLine>, g3: seq<SummaryLine>, g4: seq<SummaryLine>,
                  g5: seq<SummaryLine>, g6: seq<SummaryLine>, g7: seq<SummaryLine>, nf: SummaryLine)
    ensures var l := SummaryLayout(g1, g2, g3, g4, g5, g6, g7, nf);
            |l| >= 2 && l[|l| - 2] == nf && l[|l| - 1] == Blank
  {
    var s7 := Group(Group(Group(Group(Group(Group(Group([], g1), g2), g3), g4), g5), g6), g7);
    GroupEnd(s7, [nf]);
  }

  lemma LayoutBlanks(g1: seq<SummaryLine>, g2: seq<SummaryLine>, g3: seq<SummaryLine>, g4: seq<SummaryLine>,
                     g5: seq<SummaryLine>, g6: seq<SummaryLine>, g7: seq<SummaryLine>, nf: SummaryLine)
    requires multiset(g1)[Blank] == 0 && multiset(g2)[Blank] == 0 && multiset(g3)[Blank] == 0
    requires multiset(g4)[Blank] == 0 && multiset(g5)[Blank] == 0 && multiset(g6)[Blank] == 0
    requires multiset(g7)[Blank] == 0 && nf != Blank
    ensures multiset(SummaryLayout(g1, g2, g3, g4, g5, g6, g7, nf))[Blank] == 8
  {
    var s1 := Group([], g1);
    GroupBlanks([], g1, 0);
    var s2 := Group(s1, g2);
    GroupBlanks(s1, g2, 1);
    var s3 := Group(s2, g3);
    GroupBlanks(s2, g3, 2);
    var s4 := Group(s3, g4);
    GroupBlanks(s3, g4, 3);
    var s5 := Group(s4, g5);
    GroupBlanks(s4, g5, 4);
    var s6 := Group(s5, g6);
    GroupBlanks(s5, g6, 5);
    var s7 := Group(s6, g7);
    GroupBlanks(s6, g7, 6);
    assert multiset([nf])[Blank] == 0;
    GroupBlanks(s7, [nf], 7);
  }

  /** The summary ends with the NotFound line, naming the route "*", and a blank line. */
  lemma SummaryEnd(c: Ctx, o: Orders)
    ensures var l := SummaryFor(c, o);
            && |l| >= 2
            && l[|l| - 2] == Line("HTML Not Found", NotFoundRoute, c.html.notFound)
            && l[|l| - 1] == Blank
  {
    LayoutEnd(
      ConcatMap(o.htmlPublic, LinesTable("HTML Public", c.html.public)),
      ConcatMap(o.htmlAuthd, LinesTable("HTML Authd", c.html.authd)),
      ConcatMap(o.xhrPublic, LinesTable("XHR Public", c.xhr.public)),
      ConcatMap(o.xhrAuthd, LinesTable("XHR Authd", c.xhr.authd)),
      WsLines(c.ws.public, "WS Public"),
      WsLines(c.ws.authd, "WS Authd"),
      ConcatMap(o.filePublic, LinesTable("FILE Public", c.file.public)),
      Line("HTML Not Found", NotFoundRoute, c.html.notFound));
  }

  /** The summary has one line per map key and per WebSocket route, plus nine lines: one blank
      line after each of the seven groups, the NotFound line and the blank line after it; no
      other line is blank. */
  lemma SummaryShape(c: Ctx, o: Orders)
    requires ValidOrders(c, o)
    ensures var l := SummaryFor(c, o);
            && |l| == |c.html.public| + |c.html.authd| + |c.xhr.public| + |c.xhr.authd|
                      + |c.ws.public| + |c.ws.authd| + |c.file.public| + 9
            && multiset(l)[Blank] == 8
  {
    var hp, ha := LinesTable("HTML Public", c.html.public), LinesTable("HTML Authd", c.html.authd);
    var xp, xa := LinesTable("XHR Public", c.xhr.public), LinesTable("XHR Authd", c.xhr.authd);
    var fp := LinesTable("FILE Public", c.file.public);
    LinesCount(o.htmlPublic, "HTML Public", c.html.public);
    LinesCount(o.htmlAuthd, "HTML Authd", c.html.authd);
    LinesCount(o.xhrPublic, "XHR Public", c.xhr.public);
    LinesCount(o.xhrAuthd, "XHR Authd", c.xhr.authd);
    LinesCount(o.filePublic, "FILE Public", c.file.public);
    WsLinesAt(c.ws.public, "WS Public");
    WsLinesAt(c.ws.authd, "WS Authd");
    NoBlankInWs(c.ws.public, "WS Public");
    NoBlankInWs(c.ws.authd, "WS Authd");
    var g1, g2, g3 := ConcatMap(o.htmlPublic, hp), ConcatMap(o.htmlAuthd, ha), ConcatMap(o.xhrPublic, xp);
    var g4, g7 := ConcatMap(o.xhrAuthd, xa), ConcatMap(o.filePublic, fp);
    var g5, g6 := WsLines(c.ws.public, "WS Public"), WsLines(c.ws.authd, "WS Authd");
    var nf := Line("HTML Not Found", NotFoundRoute, c.html.notFound);
    LayoutLength(g1, g2, g3, g4, g5, g6, g7, nf);
    LayoutBlanks(g1, g2, g3, g4, g5, g6, g7, nf);
  }

  /** A map group's lines: none blank, one per key. */
  lemma LinesCount(order: seq<string>, descr: string, routes: map<string, Handler>)
    requires Enumerates(order, routes.Keys)
    ensures multiset(ConcatMap(order, LinesTable(descr, routes)))[Blank] == 0
    ensures |ConcatMap(order, LinesTable(descr, routes))| == |routes|
  {
    NoBlankInGroup(order, descr, routes);
    EnumeratesMultiset(order, routes.Keys);
    if r :| r in routes {
      GroupLinesOnce(routes, descr, order, r);
    } else {
      assert routes.Keys == {};
      assert |multiset(order)| == 0;
    }
  }

  // ---------------------------------------------------------------------------------------
  // The loops
  // ---------------------------------------------------------------------------------------

  /** `makeRouteHandlers`: registers the page under each of its synonyms, in order, and adds
      one summary line naming the page's own route. */
  method MakeRouteHandlers(router: Router, r: string, h: Handler, authd: bool, descr: string,
                           summ: seq<SummaryLine>, synonyms: string -> seq<string>)
    returns (router': Router, summ': seq<SummaryLine>)
    ensures router'.notFound == router.notFound
    ensures router'.routes == router.routes + PageRegistrations(synonyms(r), h, authd)
    ensures summ' == summ + [Line(descr, r, h)]
  {
    router' := router;
    var patterns := synonyms(r);
    for i := 0 to |patterns|
      invariant router'.notFound == router.notFound
      invariant router'.routes == router.routes + PageRegistrations(patterns[..i], h, authd)
    {
      assert patterns[..i + 1][..i] == patterns[..i];
      router' := router'.(routes := router'.routes + [Registration(patterns[i], Made(Html, h, authd))]);
    }
    assert patterns[..|patterns|] == patterns;
    summ' := summ + [Line(descr, r, h)];
  }

  /** The `for r, h := range` loop over an HTML map. */
  method RegisterPages(router: Router, summ: seq<SummaryLine>, routes: map<string, Handler>,
                       authd: bool, descr: string, synonyms: string -> seq<string>)
    returns (router': Router, summ': seq<SummaryLine>, ghost order: seq<string>)
    ensures Enumerates(order, routes.Keys)
    ensures router'.notFound == router.notFound
    ensures router'.routes == router.routes + ConcatMap(order, PageTable(routes, authd, synonyms))
    ensures summ' == summ + ConcatMap(order, LinesTable(descr, routes))
  {
    router', summ', order := router, summ, [];
    var rest := routes.Keys;
    ghost var done: set<string> := {};
    while rest != {}
      invariant rest !! done && rest + done == routes.Keys
      invariant Enumerates(order, done)
      invariant router'.notFound == router.notFound
      invariant router'.routes == router.routes + ConcatMap(order, PageTable(routes, authd, synonyms))
      invariant summ' == summ + ConcatMap(order, LinesTable(descr, routes))
      decreases rest
    {
      var r :| r in rest;
      router', summ' := MakeRouteHandlers(router', r, routes[r], authd, descr, summ', synonyms);
      PageStep(routes, authd, synonyms, order, r, descr, router.routes, summ);
      EnumeratesSnoc(order, done, r);
      order, done, rest := order + [r], done + {r}, rest - {r};
    }
  }

  /** The `for r, h := range` loop over an XHR or FILE map: one summary line and one
      registration per key. */
  method RegisterDirect(router: Router, summ: seq<SummaryLine>, routes: map<string, Handler>,
                        kind: Kind, authd: bool, descr: string)
    returns (router': Router, summ': seq<SummaryLine>, ghost order: seq<string>)
    ensures Enumerates(order, routes.Keys)
    ensures router'.notFound == router.notFound
    ensures router'.routes == router.routes + ConcatMap(order, DirectTable(routes, kind, authd))
    ensures summ' == summ + ConcatMap(order, LinesTable(descr, routes))
  {
    router', summ', order := router, summ, [];
    var rest := routes.Keys;
    ghost var done: set<string> := {};
    while rest != {}
      invariant rest !! done && rest + done == routes.Keys
      invariant Enumerates(order, done)
      invariant router'.notFound == router.notFound
      invariant router'.routes == router.routes + ConcatMap(order, DirectTable(routes, kind, authd))
      invariant summ' == summ + ConcatMap(order, LinesTable(descr, routes))
      decreases rest
    {
      var r :| r in rest;
      summ' := summ' + [Line(descr, r, routes[r])];
      router' := router'.(routes := router'.routes + [Registration(r, Made(kind, routes[r], authd))]);
      DirectStep(routes, kind, authd, order, r, descr, router.routes, summ);
      EnumeratesSnoc(order, done, r);
      order, done, rest := order + [r], done + {r}, rest - {r};
    }
  }

  /** The `for _, wsr := range` loop over a WebSocket slice, in slice order. */
  method RegisterWs(router: Router, summ: seq<SummaryLine>, routes: seq<WsRoute>, authd: bool, descr: string)
    returns (router': Router, summ': seq<SummaryLine>)
    ensures router'.notFound == router.notFound
    ensures router'.routes == router.routes + WsRegistrations(routes, authd)
    ensures summ' == summ + WsLines(routes, descr)
  {
    router', summ' := router, summ;
    for i := 0 to |routes|
      invariant router'.notFound == router.notFound
      invariant router'.routes == router.routes + WsRegistrations(routes[..i], authd)
      invariant summ' == summ + WsLines(routes[..i], descr)
    {
      var wsr := routes[i];
      assert routes[..i + 1][..i] == routes[..i];
      summ' := summ' + [Line(descr, wsr.url, wsr.procs)];
      router' := router'.(routes := router'.routes + [Registration(wsr.url, MadeWs(wsr, authd))]);
    }
    assert routes[..|routes|] == routes;
  }

  /** The building part of `Initialize_Router`: every group in turn, each followed by a blank
      summary line, then the NotFound handler under the route "*". */
  method BuildRouter(c: Ctx, synonyms: string -> seq<string>)
    returns (router: Router, summ: seq<SummaryLine>, ghost orders: Orders)
    ensures ValidOrders(c, orders)
    ensures router == Router(RoutesFor(c, synonyms, orders), Some(MadeNotFound(c.html.notFound)))
    ensures summ == SummaryFor(c, orders)
  {
    router, summ := NewRouter, [];
    ghost var o1, o2, o3, o4, o5;
    router, summ, o1 := RegisterPages(router, summ, c.html.public, false, "HTML Public", synonyms);
    assert [] + ConcatMap(o1, PageTable(c.html.public, false, synonyms)) == ConcatMap(o1, PageTable(c.html.public, false, synonyms));
    summ := summ + [Blank];
    router, summ, o2 := RegisterPages(router, summ, c.html.authd, true, "HTML Authd", synonyms);
    summ := summ + [Blank];
    router, summ, o3 := RegisterDirect(router, summ, c.xhr.public, Xhr, false, "XHR Public");
    summ := summ + [Blank];
    router, summ, o4 := RegisterDirect(router, summ, c.xhr.authd, Xhr, true, "XHR Authd");
    summ := summ + [Blank];
    router, summ := RegisterWs(router, summ, c.ws.public, false, "WS Public");
    summ := summ + [Blank];
    router, summ := RegisterWs(router, summ, c.ws.authd, true, "WS Authd");
    summ := summ + [Blank];
    router, summ, o5 := RegisterDirect(router, summ, c.file.public, Html, false, "FILE Public");
    summ := summ + [Blank];
    router := router.(notFound := Some(MadeNotFound(c.html.notFound)));
    summ := summ + [Line("HTML Not Found", NotFoundRoute, c.html.notFound)];
    summ := summ + [Blank];
    orders := Orders(o1, o2, o3, o4, o5);
  }
}
