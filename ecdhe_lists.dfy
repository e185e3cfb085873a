/** The point-format and named-group lists the ECDHE ServerKeyExchange
    preparator stores in the message computations, stated on the lists. The
    point formats are filtered by the client's list only when settings are NOT
    enforced; the named groups are filtered by the server's list only when they
    ARE enforced. */
module EcdheLists {
  import opened TlsConstants
  import opened Lists

  // ---------------------------------------------------------------------------
  // Point formats

  /** The formats the server starts from: its own, else the configured defaults. */
  function StartFormats(server: seq<ECPointFormat>, defaults: seq<ECPointFormat>): seq<ECPointFormat>
  {
    if server == [] then defaults else server
  }

  /** `generatePointFormatList` with the fallback reading the configured defaults:
      start from the server's formats (or the defaults), drop, unless settings are
      enforced, those the client does not list, and fall back to the defaults when
      nothing is left. */
  function PointFormatList(server: seq<ECPointFormat>, client: seq<ECPointFormat>, defaults: seq<ECPointFormat>,
    enforce: bool): seq<ECPointFormat>
  {
    var start := StartFormats(server, defaults);
    var shared := if enforce then start else DropIn(start, DropIn(start, client));
    if shared == [] then defaults else shared
  }

  /** `generatePointFormatList` as written: when the server lists no format, the
      working list IS the configuration's default list, so `removeAll` empties the
      defaults themselves and the fallback then copies the emptied list. The second
      component is the configuration's default list afterwards. */
  function PointFormatListAsWritten(server: seq<ECPointFormat>, client: seq<ECPointFormat>,
    defaults: seq<ECPointFormat>, enforce: bool): (seq<ECPointFormat>, seq<ECPointFormat>)
  {
    if server != [] then
      var shared := if enforce then server else DropIn(server, DropIn(server, client));
      (if shared == [] then defaults else shared, defaults)
    else
      var shared := if enforce then defaults else DropIn(defaults, DropIn(defaults, client));
      (shared, shared)
  }

  /** With enforced settings the list is the starting list. Without, it holds
      exactly the starting formats the client also lists, in order, unless there
      are none, when it is the defaults. */
  lemma PointFormatListSpec(server: seq<ECPointFormat>, client: seq<ECPointFormat>, defaults: seq<ECPointFormat>,
    enforce: bool)
    ensures var start := StartFormats(server, defaults);
      var shared := KeepIn(start, client);
      PointFormatList(server, client, defaults, enforce)
        == if enforce then start else if shared == [] then defaults else shared
  {
    var start := StartFormats(server, defaults);
    DropUnsupportedKeepsSupported(start, DropIn(start, client), client);
  }

  /** Configured defaults guarantee a non-empty list, and every format in it is
      one the server starts from or a default. */
  lemma {:induction false} PointFormatListBounds(server: seq<ECPointFormat>, client: seq<ECPointFormat>,
    defaults: seq<ECPointFormat>, enforce: bool)
    ensures defaults != [] ==> PointFormatList(server, client, defaults, enforce) != []
    ensures forall i :: 0 <= i < |PointFormatList(server, client, defaults, enforce)| ==>
      PointFormatList(server, client, defaults, enforce)[i] in StartFormats(server, defaults)
      || PointFormatList(server, client, defaults, enforce)[i] in defaults
  {
    var start := StartFormats(server, defaults);
    var r := PointFormatList(server, client, defaults, enforce);
    if !enforce && DropIn(start, DropIn(start, client)) != [] {
      assert r == DropIn(start, DropIn(start, client));
      assert forall i :: 0 <= i < |r| ==> r[i] in start;
    }
  }

  /** Without enforced settings, a non-default list holds only formats the
      client lists. */
  lemma PointFormatListClientSupported(server: seq<ECPointFormat>, client: seq<ECPointFormat>,
    defaults: seq<ECPointFormat>)
    ensures var r := PointFormatList(server, client, defaults, false);
      r == defaults || forall i :: 0 <= i < |r| ==> r[i] in client
  {
    var start := StartFormats(server, defaults);
    var r := PointFormatList(server, client, defaults, false);
    if r != defaults {
      assert r == DropIn(start, DropIn(start, client));
      forall i | 0 <= i < |r|
        ensures r[i] in client
      {
        assert r[i] in start && r[i] !in DropIn(start, client);
      }
    }
  }

  /** Where the server lists a format, the code as written and the intended list
      agree, and the configuration is left alone. */
  lemma AsWrittenAgreesWithServerFormats(server: seq<ECPointFormat>, client: seq<ECPointFormat>,
    defaults: seq<ECPointFormat>, enforce: bool)
    requires server != []
    ensures PointFormatListAsWritten(server, client, defaults, enforce)
      == (PointFormatList(server, client, defaults, enforce), defaults)
  {
  }

  /** The counterexample: a server with no formats of its own, one default
      format, and a client listing none. The code as written empties the
      configured defaults and stores an empty list; the intended list is the
      default format. */
  lemma AsWrittenEmptiesDefaults()
    ensures PointFormatListAsWritten([], [], [Uncompressed], false) == ([], [])
    ensures PointFormatList([], [], [Uncompressed], false) == [Uncompressed]
  {
    assert DropIn([Uncompressed], []) == [Uncompressed];
    assert DropIn([Uncompressed], [Uncompressed]) == [];
  }

  // ---------------------------------------------------------------------------
  // Named groups

  /** `generateNamedGroupList`: the client's groups; with enforced settings only
      those the server also supports, falling back, when none is, to the default
      groups of the local connection end. */
  function NamedGroupList(client: seq<NamedGroup>, server: seq<NamedGroup>, enforce: bool, localEnd: ConnectionEndType,
    defaultClient: seq<NamedGroup>, defaultServer: seq<NamedGroup>): seq<NamedGroup>
  {
    if !enforce then client
    else
      var shared := DropIn(client, DropIn(client, server));
      if shared != [] then shared
      else if localEnd == Client then defaultClient
      else defaultServer
  }

  /** Without enforced settings the client's groups are used unchanged. With
      enforced settings the list holds exactly the client's groups the server
      supports, in the client's order, unless there are none, when it is the
      local end's default list. */
  lemma NamedGroupListSpec(client: seq<NamedGroup>, server: seq<NamedGroup>, enforce: bool,
    localEnd: ConnectionEndType, defaultClient: seq<NamedGroup>, defaultServer: seq<NamedGroup>)
    ensures var shared := KeepIn(client, server);
      NamedGroupList(client, server, enforce, localEnd, defaultClient, defaultServer)
        == if !enforce then client
           else if shared != [] then shared
           else if localEnd == Client then defaultClient
           else defaultServer
  {
    DropUnsupportedKeepsSupported(client, DropIn(client, server), server);
  }
}
