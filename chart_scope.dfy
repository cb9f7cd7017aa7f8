/**
 * The part of a cdk8s chart that the adapter reads and changes: its API-object children by
 * id, in the order they were added (the order `findAll` visits them), its namespace, the names
 * it generates, and the CloudFormation resources defined in it.
 */
module ChartScope {
  import opened Wrappers
  import opened Json
  import opened Base

  /**
   * A CloudFormation resource construct: its logical id, its type, and its properties as
   * rendered and resolved by the stack (`None` when the template carries none).
   */
  datatype CfnResource = CfnResource(logicalId: string, cfnType: string, properties: Option<Json>)

  predicate Distinct(ids: seq<string>) {
    forall i, j :: 0 <= i < j < |ids| ==> ids[i] != ids[j]
  }

  /** The chart's API objects by child id, and the ids in the order the children were added. */
  datatype Tree = Tree(children: map<string, ApiObject>, order: seq<string>) {
    predicate Valid() {
      children.Keys == (set id | id in order) && Distinct(order)
    }

    /** Creating a construct under an id the chart already has throws. */
    function Add(c: Child): (r: Outcome<Tree>)
      ensures r.Success? <==> c.id !in children
      ensures r.Failure? ==> r.error == DuplicateChild(c.id)
      ensures r.Success? ==> r.value.children == children[c.id := c.obj] && r.value.order == order + [c.id]
      ensures r.Success? ==> Extends(this, r.value)
      ensures r.Success? && Valid() ==> r.value.Valid()
    {
      if c.id in children then Failure(DuplicateChild(c.id))
      else Success(Tree(children[c.id := c.obj], order + [c.id]))
    }

    /**
     * Creating several constructs in turn; the first duplicate id throws. On success the ids
     * follow the existing ones in the order given, and each id holds its own object.
     */
    function AddAll(cs: seq<Child>): (r: Outcome<Tree>)
      ensures r.Success? ==> Extends(this, r.value)
      ensures r.Success? ==> |r.value.order| == |order| + |cs|
      ensures r.Success? ==> forall k :: 0 <= k < |cs| ==> r.value.order[|order| + k] == cs[k].id
      ensures r.Success? ==> forall c :: c in cs ==> c.id in r.value.children && r.value.children[c.id] == c.obj
      ensures r.Success? && Valid() ==> r.value.Valid()
      decreases |cs|
    {
      if cs == [] then Success(this)
      else
        var t :- AddAll(cs[..|cs| - 1]);
        t.Add(cs[|cs| - 1])
    }

    /** `ApiObject.of(findChild(id)).name` for every child id. */
    function Names(): (names: map<string, string>)
      ensures names.Keys == children.Keys
      ensures forall id :: id in names ==> names[id] == children[id].name
    {
      map id | id in children :: children[id].name
    }

    /** `addJsonPatch` on child `id`, once per patch in `ps`. */
    function AppendPatches(id: string, ps: seq<Patch>): (t: Tree)
      requires id in children
      ensures t.order == order && t.children.Keys == children.Keys
      ensures t.children[id] == children[id].(patches := children[id].patches + ps)
      ensures forall other :: other in children && other != id ==> t.children[other] == children[other]
    {
      Tree(children[id := children[id].(patches := children[id].patches + ps)], order)
    }
  }

  /** `t2` still holds every child of `t1`, unchanged, and adds children only after them. */
  predicate Extends(t1: Tree, t2: Tree) {
    && t1.order <= t2.order
    && forall id :: id in t1.children ==> id in t2.children && t2.children[id] == t1.children[id]
  }

  /** `t2` differs from `t1` at most in the patches its children carry. */
  predicate PatchesOnly(t1: Tree, t2: Tree) {
    && t2.order == t1.order && t2.children.Keys == t1.children.Keys
    && forall id :: id in t1.children ==> t2.children[id] == t1.children[id].(patches := t2.children[id].patches)
  }

  /** Once creating the first `k` children throws, creating them all throws the same error. */
  lemma {:induction false} AddAllFailsAtPrefix(t: Tree, cs: seq<Child>, k: nat)
    requires k <= |cs| && t.AddAll(cs[..k]).Failure?
    ensures t.AddAll(cs) == t.AddAll(cs[..k])
    decreases |cs|
  {
    if k < |cs| {
      assert cs[..|cs| - 1][..k] == cs[..k];
      AddAllFailsAtPrefix(t, cs[..|cs| - 1], k);
    } else {
      assert cs[..k] == cs;
    }
  }

  lemma AppendNothing(t: Tree, id: string)
    requires id in t.children
    ensures t.AppendPatches(id, []) == t
  {
    assert t.children[id].(patches := t.children[id].patches + []) == t.children[id];
  }

  lemma AppendPatchesTwice(t: Tree, id: string, a: seq<Patch>, b: seq<Patch>)
    requires id in t.children
    ensures t.AppendPatches(id, a).AppendPatches(id, b) == t.AppendPatches(id, a + b)
  {
    assert t.children[id].patches + a + b == t.children[id].patches + (a + b);
  }

  /** A cdk8s chart, as the adapter sees it. */
  class ChartScope {
    const env: Env
    /** The CloudFormation resources defined in the chart, in tree order. */
    const cfnResources: seq<CfnResource>
    var tree: Tree

    constructor(env: Env, cfnResources: seq<CfnResource>, tree: Tree)
      ensures this.env == env && this.cfnResources == cfnResources && this.tree == tree
    {
      this.env := env;
      this.cfnResources := cfnResources;
      this.tree := tree;
    }

    method AddChild(c: Child) returns (r: Outcome<()>)
      modifies this
      ensures r == Unit(old(tree).Add(c))
      ensures r.Success? ==> tree == old(tree).Add(c).value
    {
      if c.id in tree.children {
        return Failure(DuplicateChild(c.id));
      }
      tree := Tree(tree.children[c.id := c.obj], tree.order + [c.id]);
      return Success(());
    }

    method AddChildren(cs: seq<Child>) returns (r: Outcome<()>)
      modifies this
      ensures r == Unit(old(tree).AddAll(cs))
      ensures r.Success? ==> tree == old(tree).AddAll(cs).value
    {
      for k := 0 to |cs|
        invariant old(tree).AddAll(cs[..k]).Success?
        invariant tree == old(tree).AddAll(cs[..k]).value
      {
        assert cs[..k + 1][..k] == cs[..k];
        r := AddChild(cs[k]);
        if r.Failure? {
          AddAllFailsAtPrefix(old(tree), cs, k + 1);
          return;
        }
      }
      assert cs[..|cs|] == cs;
      return Success(());
    }

    method AddJsonPatch(id: string, p: Patch)
      requires id in tree.children
      modifies this
      ensures tree == old(tree).AppendPatches(id, [p])
    {
      tree := tree.AppendPatches(id, [p]);
    }
  }
}
