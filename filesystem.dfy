/** The directory tree os.path.exists and os.makedirs act on. */
module FileSystem {
  import opened Paths

  /** Whether `p` names an existing directory; the root always exists. */
  predicate Present(dirs: set<Path>, p: Path)
  {
    p == [] || p in dirs
  }

  class Disk {
    var dirs: set<Path>

    ghost predicate Valid()
      reads this
    {
      ParentClosed(dirs)
    }

    constructor (initial: set<Path>)
      requires ParentClosed(initial)
      ensures Valid() && dirs == initial
    {
      dirs := initial;
    }

    /** os.path.exists */
    function Exists(p: Path): (r: bool)
      reads this
      ensures p == [] ==> r
      ensures p != [] ==> (r <==> p in dirs)
    {
      Present(dirs, p)
    }

    /**
     * os.makedirs(p) without exist_ok: raises FileExistsError (created is
     * false) when `p` already exists, and otherwise creates `p` with all of
     * its missing ancestors.
     */
    method MakeDirs(p: Path) returns (created: bool)
      requires Valid()
      modifies this
      ensures Valid()
      ensures created == !old(Exists(p))
      ensures dirs == if created then old(dirs) + Prefixes(p) else old(dirs)
      ensures created ==> Exists(p)
    {
      created := !Exists(p);
      if created {
        AddingPrefixesKeepsParentClosed(dirs, p);
        dirs := dirs + Prefixes(p);
      }
    }
  }
}
