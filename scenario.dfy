/** A worked batch: three files A, B and C in the pending folder, listed on one
    page; the transport refuses B's message. */
module Scenario {
  import opened Types
  import opened Mime
  import opened Store
  import opened Relay
  import opened RelayProperties

  const Pending: FolderId := "F1"
  const Done: FolderId := "F2"

  function Cfg(): Config {
    Config("creds.json", "application", "pdf", Pending, Done,
           "sender@example.com", "receiver@example.com", "smtp.example.com", "587", "secret")
  }

  function Meta(id: FileId): FileMeta { FileMeta(id, id + ".pdf", [Pending]) }

  function Start(): World {
    World(0,
          map["A" := {Pending}, "B" := {Pending}, "C" := {Pending}],
          map["A" := [1 as byte], "B" := [2 as byte], "C" := [3 as byte]],
          [], [])
  }

  function RefusingB(): Oracle {
    Oracle([Page(Some([Meta("A"), Meta("B"), Meta("C")]), None)], {},
           {ComposeMessage(Cfg(), Meta("B"), [2 as byte])})
  }

  /** The listing of the scenario: one request, which returns all three files. */
  lemma ScenarioListing()
    ensures ListFrom(RefusingB(), Start(), ConfiguredQuery(Cfg()), None) ==
      (Ok([Meta("A"), Meta("B"), Meta("C")]),
       Start().(served := 1, trace := [ListCall(ConfiguredQuery(Cfg()), None)]))
  {
  }

  /** The refusal of B's message escapes the batch: A has been mailed and moved,
      B and C keep their pending parent, and C is never downloaded or mailed. */
  lemma {:induction false} SecondSendRefused()
    ensures var (outcome, w') := RunSpec(RefusingB(), Cfg(), true, Start());
      var mailA := ComposeMessage(Cfg(), Meta("A"), [1 as byte]);
      var mailB := ComposeMessage(Cfg(), Meta("B"), [2 as byte]);
      outcome == Raised(SendFailed("B.pdf")) &&
      w'.sent == [mailA] &&
      w'.parents == map["A" := {Done}, "B" := {Pending}, "C" := {Pending}] &&
      w'.trace == [ListCall(ConfiguredQuery(Cfg()), None),
                   ChunkCall("A", 0), SendCall(mailA), GetParentsCall("A"), UpdateCall("A", Done, {Pending}),
                   ChunkCall("B", 0), SendCall(mailB)]
  {
    var o, cfg, w := RefusingB(), Cfg(), Start();
    var files := [Meta("A"), Meta("B"), Meta("C")];
    ScenarioListing();
    var w1 := ListFrom(o, w, ConfiguredQuery(cfg), None).1;
    assert ChunkCalls("A", 0, 1) == [ChunkCall("A", 0)];
    assert ChunkCalls("B", 0, 1) == [ChunkCall("B", 0)];
    RelayFileSteps(o, cfg, w1, files[0]);
    var (a, wa) := RelayFileSpec(o, cfg, w1, files[0]);
    assert a.Ok?;
    assert wa.content["B"] == [2 as byte];
    assert Meta("B").name == "B.pdf";
    assert ComposeMessage(cfg, files[1], wa.content["B"]) in o.refusedMessages;
    RelayFileSteps(o, cfg, wa, files[1]);
    var (b, wb) := RelayFileSpec(o, cfg, wa, files[1]);
    assert ProcessSpec(o, cfg, w1, files) == (b, wb);
    assert wa.parents == w.parents["A" := {Done}];
  }
}
