/** The dashboard's summary cards: for tasks, projects and objectives, the
    number of items and the number not completed. */
module StatsConfig {
  import opened Values
  import opened ListOps
  import opened EntityList

  datatype Stat = Stat(title: string, total: nat, active: nat)

  /** `item.status !== 'completed'` */
  predicate IsActive(item: Record) {
    !StatusIs(item, "completed")
  }

  function StatFor(title: string, items: seq<Record>): (st: Stat)
    ensures st.title == title && st.total == |items|
    ensures st.active == Count(items, IsActive) && st.active <= st.total
  {
    Stat(title, |items|, Count(items, IsActive))
  }

  /** `createDashboardStats(tasks, projects, objectives)` */
  function DashboardStats(tasks: seq<Record>, projects: seq<Record>, objectives: seq<Record>): (r: seq<Stat>)
    ensures |r| == 3
    ensures r[0] == StatFor("Tasks", tasks)
    ensures r[1] == StatFor("Projects", projects)
    ensures r[2] == StatFor("Objectives", objectives)
  {
    [StatFor("Tasks", tasks), StatFor("Projects", projects), StatFor("Objectives", objectives)]
  }

  /** The items not counted as active are exactly the completed ones. */
  lemma ActivePlusCompleted(items: seq<Record>)
    ensures StatFor("", items).active + Count(items, (r: Record) => StatusIs(r, "completed")) == |items|
  {
    CountComplement(items, IsActive, (r: Record) => StatusIs(r, "completed"));
  }

  /** A new completed item raises the total and leaves the active count; any
      other new item raises both. */
  lemma AppendItem(items: seq<Record>, x: Record)
    ensures StatFor("", items + [x]).total == StatFor("", items).total + 1
    ensures StatusIs(x, "completed") ==> StatFor("", items + [x]).active == StatFor("", items).active
    ensures !StatusIs(x, "completed") ==> StatFor("", items + [x]).active == StatFor("", items).active + 1
  {
    if IsActive(x) {
      FilterAppendAccepted(items, x, IsActive);
    } else {
      FilterAppendRejected(items, x, IsActive);
    }
  }
}
