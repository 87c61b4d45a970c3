/** Which tools a model is offered, and who executes its calls to them. */
module ServerTools {
  import opened Chat
  import opened Collections
  import opened Orchestration

  /** The schema is opaque. */
  datatype Definition = Definition(name: string, description: string, schema: string)

  function Names(tools: seq<Definition>): set<string> {
    set t | t in tools :: t.name
  }

  /** The tools of `server` whose name is not in `taken`. */
  function Unshadowed(taken: set<string>, server: seq<Definition>): seq<Definition> {
    if server == [] then []
    else
      var last := server[|server| - 1];
      Unshadowed(taken, server[..|server| - 1]) + if last.name in taken then [] else [last]
  }

  /** The client's tools, then the server's that they do not shadow. */
  method MergeTools(client: seq<Definition>, server: seq<Definition>) returns (out: seq<Definition>)
    ensures out == client + Unshadowed(Names(client), server)
  {
    if |server| == 0 {
      assert client + [] == client;
      return client;
    }
    var have := Names(client);
    out := client;
    for i := 0 to |server|
      invariant out == client + Unshadowed(have, server[..i])
    {
      assert server[..i + 1][..i] == server[..i];
      if server[i].name !in have {
        Regroup(client, Unshadowed(have, server[..i]), [server[i]]);
        out := out + [server[i]];
      }
    }
    WholePrefix(server);
  }

  /** `some` are the tools of `all` at these places, as they are. */
  ghost predicate Picks(all: seq<Definition>, at: seq<nat>, some: seq<Definition>) {
    |some| == |at| && forall i :: 0 <= i < |at| ==> at[i] < |all| && some[i] == all[at[i]]
  }

  lemma {:induction false} PicksNext(all: seq<Definition>, t: Definition, at: seq<nat>, some: seq<Definition>)
    requires Picks(all, at, some)
    ensures Picks(all + [t], at, some) && Picks(all + [t], at + [|all|], some + [t])
  {
  }

  /** The server's part: its tools with a name that is not taken, all of them, in order, and as they are. */
  lemma {:induction false} UnshadowedAre(taken: set<string>, server: seq<Definition>) returns (at: seq<nat>)
    ensures Ascends(at) && Picks(server, at, Unshadowed(taken, server))
    ensures forall k: nat :: k in at <==> k < |server| && server[k].name !in taken
  {
    if server == [] {
      at := [];
    } else {
      var n := |server| - 1;
      assert server[..n] + [server[n]] == server;
      at := UnshadowedAre(taken, server[..n]);
      PicksNext(server[..n], server[n], at, Unshadowed(taken, server[..n]));
      if server[n].name !in taken {
        AscendsNext(at, n);
        at := at + [n];
      } else {
        PlusNothing(Unshadowed(taken, server[..n]));
      }
    }
  }

  lemma {:induction false} UnshadowedNames(taken: set<string>, server: seq<Definition>)
    ensures Names(Unshadowed(taken, server)) == Names(server) - taken
  {
    if server == [] {
    } else {
      var before, last := server[..|server| - 1], server[|server| - 1];
      UnshadowedNames(taken, before);
      assert server == before + [last];
      NamesAppend(before, last);
      if last.name in taken {
        assert Unshadowed(taken, server) == Unshadowed(taken, before);
      } else {
        NamesAppend(Unshadowed(taken, before), last);
      }
    }
  }

  lemma {:induction false} NamesAppend(tools: seq<Definition>, t: Definition)
    ensures Names(tools + [t]) == Names(tools) + {t.name}
  {
    assert t in tools + [t];
    assert forall x :: x in tools ==> x in tools + [t];
  }

  /**
   * A call is the server's to execute exactly when the tool it names was offered from the server's part of the merged
   * list; a name the client declares is only ever offered with the client's definition.
   */
  lemma {:induction false} OwnedIffOfferedByServer(s: Setting, client: seq<Definition>, server: seq<Definition>,
                                                   call: ToolCall)
    requires s.registered == Names(server) && s.clientTools == Names(client)
    ensures s.Owned(call) <==> call.name in Names(Unshadowed(Names(client), server))
    ensures Names(client) !! Names(Unshadowed(Names(client), server))
    ensures Names(client) + Names(Unshadowed(Names(client), server)) == Names(client) + Names(server)
  {
    UnshadowedNames(Names(client), server);
  }
}
