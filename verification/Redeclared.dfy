// Why a package must be declared in one way only: the features that its manager requires may declare
// it anew, and the task is built from the new declaration, while the manager that was added is one
// of the old.
module Redeclared {
  import opened Options
  import opened Resolver
  import opened RunnablePlans

  // Package "p" is installed by "m", which requires "f"; and "f" says that "n" installs "p".
  const ANEW := FeatureDef("", [], [TaskDef("command", "root", "", "", "")], map[], map["p" := ["n"]])
  const TWICE := Root(map["f" := ANEW], map["m" := ManagerDef(["f"], true)], map["p" := ["m"]])
  const HOST := Env(TWICE, "linux", {}, (service, text) => text, name => 0)
  const BARE := State([], [], map["p" := ["m"]], [])
  const INSTALL := [TaskDef("install", "system", "p", "", "")]

  lemma Names()
    ensures Base("f") == "f" == FullName("f") && ServiceOf("f") == ""
    ensures ANEW.tasks[0].typ != "install" && ANEW.tasks[0].typ != "installLocal" && !IsServiceLevel(ANEW, "linux")
  {
    assert !(SERVICE <= "f");
    assert "command"[0] != "install"[0] && "command"[0] != "installLocal"[0];
    assert ANEW.tasks[0].privilege[0] != "service"[0];
    assert ANEW.tasks[0] in TasksFor(ANEW, "linux");
  }

  lemma TwiceIsRanked()
    ensures Ranked(HOST) && TableOk(HOST, BARE.packages) && TasksBelow(HOST, INSTALL, 1) && Below(HOST, ["f"], 1)
    ensures ManagersBelow(HOST, ["m"], 1)
  {
    Names();
    assert Below(HOST, ["f"], 1);
    assert ["m"][1..] == [] && ["n"][1..] == [];
    assert "m" in HOST.root.managers;
    assert ManagersBelow(HOST, ["m"], 1) && ManagersBelow(HOST, ["n"], 1);
    forall ms | Possible(HOST, "p", ms) ensures ManagersBelow(HOST, ms, 1) {
      assert ms == ["m"] || ms == ["n"];
    }
  }

  // Working off what "m" requires declares the package anew.
  lemma Redeclares()
    requires Ranked(HOST) && TableOk(HOST, BARE.packages) && Below(HOST, ["f"], 1)
    ensures Resolve(HOST, ["f"], BARE, 1).Resolved?
    ensures var s := Resolve(HOST, ["f"], BARE, 1).s; s.managers == [] && s.packages == map["p" := ["n"]]
  {
    Names();
    hide Ranked;
    hide TableOk;
    DefKeepsRank(HOST, "f");
    assert ANEW.tasks[1..] == [];
    assert ["f"][1..] == [];
    assert ResolveOne(HOST, "f", BARE).Resolved?;
    assert ResolveOne(HOST, "f", BARE).s.packages == BARE.packages + ANEW.packages == map["p" := ["n"]];
  }

  // The task names "n", the cluster has "m": no manager on the node will install it.
  lemma RedeclaredTaskHasNoManager()
    ensures Ranked(HOST) && TableOk(HOST, BARE.packages) && TasksBelow(HOST, INSTALL, 1)
    ensures var r := AddTasks(HOST, INSTALL, BARE, 1);
      && r.Built? && |r.tasks| == 1 && r.tasks[0].package == Some(Package("p", ["n"]))
      && r.s.managers == [Manager("m", false)]
      && FirstManager(r.s.managers, r.tasks[0].package.value.managers) == None
  {
    TwiceIsRanked();
    hide Ranked;
    hide TableOk;
    hide TasksBelow;
    hide ManagersBelow;
    hide Below;
    Redeclares();
    assert INSTALL[1..] == [];
    assert !Managed(BARE.managers, ["m"]);
    var s1 := EnsureManager(HOST, ["m"], BARE, 1).s;
    assert s1.managers == [Manager("m", false)] && s1.packages == map["p" := ["n"]];
    assert "m"[0] != "n"[0];
    assert [Manager("m", false)][1..] == [];
  }
}
