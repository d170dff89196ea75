/**
 * The gadget manager of USBGadget.py: it builds, binds, unbinds and tears
 * down a composite USB gadget (an ACM serial function and a mass-storage
 * function) in the kernel configuration file system, and swaps the
 * mass-storage function in and out of the active configuration.
 *
 * The file system is the abstract tree of module Configfs, held in a field
 * that every operation edits one system call at a time.  The gadget
 * directory (config.GADGET_PATH), the configfs mount point, the UDC names
 * the kernel lists, the storage configuration and os.path.abspath are fixed
 * when the object is made; so is the set of attribute files whose writes the
 * kernel refuses.
 */
module Gadget {
  import opened Configfs
  import Storage

  /** One file-system call, as it is issued. */
  datatype Call =
    | MakeDirsCall(path: Path)
    | WriteCall(path: Path, text: string)
    | SymlinkCall(target: Path, path: Path)
    | UnlinkCall(path: Path)
    | RmtreeCall(path: Path)
    | RmdirCall(path: Path)

  /**
   * How init ends: the gadget was built and bound; it already existed; the
   * RuntimeError raised when configfs or a UDC is missing; or the exception
   * of the image command that failed.
   */
  datatype InitResult = Started | AlreadyCreated | NotReady | ImageFailed(cmd: Storage.Cmd)

  class UsbGadget {
    /** config.GADGET_PATH */
    const root: Path
    /** /sys/kernel/config */
    const configfs: Path
    /** The names os.listdir("/sys/class/udc") returns; empty when the listing fails. */
    const udcs: seq<string>
    /** The image, mount point and size USBStorage works with. */
    const storage: Storage.Config
    /** os.path.abspath */
    const abspath: string -> string
    /** Attribute files whose writes the kernel refuses. */
    const rejects: set<Path>

    /** What the file system holds now. */
    var tree: Tree
    /** Every file-system call issued so far, in order. */
    var log: seq<Call>

    ghost predicate Valid()
      reads this
    {
      WellFormed(tree) && root.Child?
    }

    constructor (root: Path, configfs: Path, udcs: seq<string>, storage: Storage.Config,
                 abspath: string -> string, rejects: set<Path>, tree: Tree)
      requires WellFormed(tree) && root.Child?
      ensures Valid()
      ensures this.root == root && this.configfs == configfs && this.udcs == udcs
      ensures this.storage == storage && this.abspath == abspath && this.rejects == rejects
      ensures this.tree == tree && log == []
    {
      this.root := root;
      this.configfs := configfs;
      this.udcs := udcs;
      this.storage := storage;
      this.abspath := abspath;
      this.rejects := rejects;
      this.tree := tree;
      log := [];
    }

    // ---- the paths the gadget uses -------------------------------------------------

    function Attr(name: string): Path { Child(root, name) }
    function StringsDir(): Path { Child(Child(root, "strings"), "0x409") }
    function Configs(): Path { Child(root, "configs") }
    function Cfg(): Path { Child(Configs(), "c.1") }
    function CfgStrings(): Path { Child(Child(Cfg(), "strings"), "0x409") }
    function Funcs(): Path { Child(root, "functions") }
    function Acm(): Path { Child(Funcs(), "acm.usb0") }
    function Ms(): Path { Child(Funcs(), "mass_storage.0") }
    function Lun(): Path { Child(Ms(), "lun.0") }
    function LunFile(): Path { Child(Lun(), "file") }
    function Removable(): Path { Child(Lun(), "removable") }
    function AcmLink(): Path { Child(Cfg(), "acm.usb0") }
    function MsLink(): Path { Child(Cfg(), "mass_storage.0") }
    function Udc(): Path { Child(root, "UDC") }

    // ---- _ensure_dir and _write as tree functions ---------------------------------------

    /** _ensure_dir: makedirs when it can, else nothing changes (the exception is swallowed). */
    function TryMakeDirs(t: Tree, p: Path): Tree {
      if CanMakeDirs(t, p) then MakeDirs(t, p) else t
    }

    /** _write succeeds when open(p, "w") does and the kernel takes the value. */
    predicate Writable(t: Tree, p: Path) {
      p !in rejects && CanWrite(t, p)
    }

    function TryWrite(t: Tree, p: Path, s: string): Tree {
      if Writable(t, p) then Write(t, p, s) else t
    }

    lemma TryMakeDirsKeeps(t: Tree, p: Path)
      requires WellFormed(t)
      ensures WellFormed(TryMakeDirs(t, p)) && Extends(t, TryMakeDirs(t, p))
    {
      if CanMakeDirs(t, p) {
        MakeDirsWellFormed(t, p);
        MakeDirsExtends(t, p);
      }
    }

    lemma TryWriteKeeps(t: Tree, p: Path, s: string)
      requires WellFormed(t)
      ensures WellFormed(TryWrite(t, p, s)) && Extends(t, TryWrite(t, p, s))
      ensures forall q :: q != p ==> Agree(t, TryWrite(t, p, s), q)
    {
      if Writable(t, p) {
        WriteWellFormed(t, p, s);
      }
    }

    // ---- the primitive calls ------------------------------------------------------------

    /** _ensure_dir (USBGadget.py:19-24). */
    method EnsureDir(p: Path) returns (ok: bool)
      requires Valid()
      modifies this
      ensures Valid()
      ensures ok == CanMakeDirs(old(tree), p)
      ensures tree == TryMakeDirs(old(tree), p) && log == old(log) + [MakeDirsCall(p)]
      ensures Extends(old(tree), tree)
    {
      TryMakeDirsKeeps(tree, p);
      ok := CanMakeDirs(tree, p);
      if ok {
        tree := MakeDirs(tree, p);
      }
      log := log + [MakeDirsCall(p)];
    }

    /** _write (USBGadget.py:10-16). */
    method WriteFile(p: Path, s: string) returns (ok: bool)
      requires Valid()
      modifies this
      ensures Valid()
      ensures ok == Writable(old(tree), p)
      ensures tree == TryWrite(old(tree), p, s) && log == old(log) + [WriteCall(p, s)]
      ensures Extends(old(tree), tree)
    {
      TryWriteKeeps(tree, p, s);
      ok := Writable(tree, p);
      if ok {
        tree := Write(tree, p, s);
      }
      log := log + [WriteCall(p, s)];
    }

    /** os.symlink(target, p); a failure is reported instead of raised. */
    method MakeLink(target: Path, p: Path) returns (ok: bool)
      requires Valid()
      modifies this
      ensures Valid()
      ensures ok == CanSymlink(old(tree), p)
      ensures tree == (if ok then Symlink(old(tree), target, p) else old(tree))
      ensures log == old(log) + [SymlinkCall(target, p)]
      ensures Extends(old(tree), tree)
    {
      ok := CanSymlink(tree, p);
      if ok {
        SymlinkWellFormed(tree, target, p);
        tree := Symlink(tree, target, p);
      }
      log := log + [SymlinkCall(target, p)];
    }

    /** os.unlink(p); a failure is reported instead of raised. */
    method RemoveEntry(p: Path) returns (ok: bool)
      requires Valid()
      modifies this
      ensures Valid()
      ensures ok == CanUnlink(old(tree), p)
      ensures tree == (if ok then Unlink(old(tree), p) else old(tree))
      ensures log == old(log) + [UnlinkCall(p)]
    {
      ok := CanUnlink(tree, p);
      if ok {
        UnlinkWellFormed(tree, p);
        tree := Unlink(tree, p);
      }
      log := log + [UnlinkCall(p)];
    }

    /** shutil.rmtree(p); a failure is reported instead of raised. */
    method RemoveTree(p: Path) returns (ok: bool)
      requires Valid()
      modifies this
      ensures Valid()
      ensures ok == CanRmtree(old(tree), p)
      ensures tree == (if ok then Prune(old(tree), p) else old(tree))
      ensures log == old(log) + [RmtreeCall(p)]
    {
      ok := CanRmtree(tree, p);
      if ok {
        PruneWellFormed(tree, p);
        tree := Prune(tree, p);
      }
      log := log + [RmtreeCall(p)];
    }

    /** os.rmdir(p); a failure is reported instead of raised. */
    method RemoveDir(p: Path) returns (ok: bool)
      requires Valid()
      modifies this
      ensures Valid()
      ensures ok == CanRmdir(old(tree), p)
      ensures tree == (if ok then Rmdir(old(tree), p) else old(tree))
      ensures log == old(log) + [RmdirCall(p)]
    {
      ok := CanRmdir(tree, p);
      if ok {
        RmdirWellFormed(tree, p);
        tree := Rmdir(tree, p);
      }
      log := log + [RmdirCall(p)];
    }

    // ---- is_ready and is_initialized -------------------------------------------------------

    /** is_ready: configfs is mounted and at least one UDC is listed. */
    predicate IsReady()
      reads this
    {
      IsDir(tree, configfs) && |udcs| > 0
    }

    /** is_initialized: the gadget directory exists. */
    predicate IsInitialized()
      reads this
    {
      IsDir(tree, root)
    }
  
    // ---- init, phase by phase, as tree functions ---------------------------------------------

    /** The gadget directory and its four identity attributes. */
    function AttributesStep(t: Tree): Tree {
      var t1 := TryMakeDirs(t, root);
      var t2 := TryWrite(t1, Attr("idVendor"), "0x1d6b");
      var t3 := TryWrite(t2, Attr("idProduct"), "0x0104");
      var t4 := TryWrite(t3, Attr("bcdDevice"), "0x0100");
      TryWrite(t4, Attr("bcdUSB"), "0x0200")
    }

    /** The English (0x409) strings. */
    function StringsStep(t: Tree): Tree {
      var t1 := TryMakeDirs(t, StringsDir());
      var t2 := TryWrite(t1, Child(StringsDir(), "serialnumber"), "receiveit");
      var t3 := TryWrite(t2, Child(StringsDir(), "manufacturer"), "receiveit");
      TryWrite(t3, Child(StringsDir(), "product"), "ReceiveIt")
    }

    /** Configuration c.1 and its description. */
    function ConfigStep(t: Tree): Tree {
      var t1 := TryMakeDirs(t, Cfg());
      var t2 := TryWrite(t1, Child(Cfg(), "MaxPower"), "250");
      var t3 := TryMakeDirs(t2, CfgStrings());
      TryWrite(t3, Child(CfgStrings(), "configuration"), "Config 1")
    }

    /** The two functions, and the mass-storage LUN backed by the image. */
    function FunctionsStep(t: Tree): Tree {
      var t1 := TryMakeDirs(t, Acm());
      var t2 := TryMakeDirs(t1, Ms());
      var t3 := TryMakeDirs(t2, Lun());
      var t4 := TryWrite(t3, LunFile(), abspath(storage.image));
      TryWrite(t4, Removable(), "1")
    }

    /**
     * Link the functions into c.1, each only when nothing reachable is there
     * yet.  The two symlinks share one try block: when the first raises the
     * second is skipped.
     */
    function LinksStep(t: Tree): Tree {
      if !Exists(t, AcmLink()) && !CanSymlink(t, AcmLink()) then t
      else
        var t1 := if Exists(t, AcmLink()) then t else Symlink(t, Acm(), AcmLink());
        if Exists(t1, MsLink()) || !CanSymlink(t1, MsLink()) then t1
        else Symlink(t1, Ms(), MsLink())
    }

    /** Bind to the first UDC. */
    function BindStep(t: Tree): Tree
      requires |udcs| > 0
    {
      TryWrite(t, Udc(), udcs[0])
    }

    /** The tree init leaves behind once it starts building (the image is in place). */
    function InitTree(t: Tree): Tree
      requires |udcs| > 0
    {
      BindStep(LinksStep(FunctionsStep(ConfigStep(StringsStep(AttributesStep(t))))))
    }

    lemma LinksStepKeeps(t: Tree)
      requires WellFormed(t)
      ensures WellFormed(LinksStep(t)) && Extends(t, LinksStep(t))
    {
      if Exists(t, AcmLink()) || CanSymlink(t, AcmLink()) {
        var t1 := if Exists(t, AcmLink()) then t else Symlink(t, Acm(), AcmLink());
        if !Exists(t, AcmLink()) {
          SymlinkWellFormed(t, Acm(), AcmLink());
        }
        if !Exists(t1, MsLink()) && CanSymlink(t1, MsLink()) {
          SymlinkWellFormed(t1, Ms(), MsLink());
          ExtendsTrans(t, t1, LinksStep(t));
        }
      }
    }

    /** No phase of init removes an entry or changes a directory or a link; together they keep a tree well formed. */
    lemma InitTreeKeeps(t: Tree)
      requires WellFormed(t) && |udcs| > 0
      ensures WellFormed(InitTree(t)) && Extends(t, InitTree(t))
    {
      var t1 := AttributesStep(t);
      AttributesKeeps(t);
      var t2 := StringsStep(t1);
      StringsKeeps(t1);
      var t3 := ConfigStep(t2);
      ConfigKeeps(t2);
      var t4 := FunctionsStep(t3);
      FunctionsKeeps(t3);
      var t5 := LinksStep(t4);
      LinksStepKeeps(t4);
      TryWriteKeeps(t5, Udc(), udcs[0]);
      ExtendsTrans(t, t1, t2);
      ExtendsTrans(t, t2, t3);
      ExtendsTrans(t, t3, t4);
      ExtendsTrans(t, t4, t5);
      ExtendsTrans(t, t5, InitTree(t));
    }

    lemma AttributesKeeps(t: Tree)
      requires WellFormed(t)
      ensures WellFormed(AttributesStep(t)) && Extends(t, AttributesStep(t))
    {
      var t1 := TryMakeDirs(t, root);
      TryMakeDirsKeeps(t, root);
      var t2 := TryWrite(t1, Attr("idVendor"), "0x1d6b");
      TryWriteKeeps(t1, Attr("idVendor"), "0x1d6b");
      var t3 := TryWrite(t2, Attr("idProduct"), "0x0104");
      TryWriteKeeps(t2, Attr("idProduct"), "0x0104");
      var t4 := TryWrite(t3, Attr("bcdDevice"), "0x0100");
      TryWriteKeeps(t3, Attr("bcdDevice"), "0x0100");
      TryWriteKeeps(t4, Attr("bcdUSB"), "0x0200");
      ExtendsTrans(t, t1, t2);
      ExtendsTrans(t, t2, t3);
      ExtendsTrans(t, t3, t4);
      ExtendsTrans(t, t4, AttributesStep(t));
    }

    lemma StringsKeeps(t: Tree)
      requires WellFormed(t)
      ensures WellFormed(StringsStep(t)) && Extends(t, StringsStep(t))
    {
      var t1 := TryMakeDirs(t, StringsDir());
      TryMakeDirsKeeps(t, StringsDir());
      var t2 := TryWrite(t1, Child(StringsDir(), "serialnumber"), "receiveit");
      TryWriteKeeps(t1, Child(StringsDir(), "serialnumber"), "receiveit");
      var t3 := TryWrite(t2, Child(StringsDir(), "manufacturer"), "receiveit");
      TryWriteKeeps(t2, Child(StringsDir(), "manufacturer"), "receiveit");
      TryWriteKeeps(t3, Child(StringsDir(), "product"), "ReceiveIt");
      ExtendsTrans(t, t1, t2);
      ExtendsTrans(t, t2, t3);
      ExtendsTrans(t, t3, StringsStep(t));
    }

    lemma ConfigKeeps(t: Tree)
      requires WellFormed(t)
      ensures WellFormed(ConfigStep(t)) && Extends(t, ConfigStep(t))
    {
      var t1 := TryMakeDirs(t, Cfg());
      TryMakeDirsKeeps(t, Cfg());
      var t2 := TryWrite(t1, Child(Cfg(), "MaxPower"), "250");
      TryWriteKeeps(t1, Child(Cfg(), "MaxPower"), "250");
      var t3 := TryMakeDirs(t2, CfgStrings());
      TryMakeDirsKeeps(t2, CfgStrings());
      TryWriteKeeps(t3, Child(CfgStrings(), "configuration"), "Config 1");
      ExtendsTrans(t, t1, t2);
      ExtendsTrans(t, t2, t3);
      ExtendsTrans(t, t3, ConfigStep(t));
    }

    lemma FunctionsKeeps(t: Tree)
      requires WellFormed(t)
      ensures WellFormed(FunctionsStep(t)) && Extends(t, FunctionsStep(t))
    {
      var t1 := TryMakeDirs(t, Acm());
      TryMakeDirsKeeps(t, Acm());
      var t2 := TryMakeDirs(t1, Ms());
      TryMakeDirsKeeps(t1, Ms());
      var t3 := TryMakeDirs(t2, Lun());
      TryMakeDirsKeeps(t2, Lun());
      var t4 := TryWrite(t3, LunFile(), abspath(storage.image));
      TryWriteKeeps(t3, LunFile(), abspath(storage.image));
      TryWriteKeeps(t4, Removable(), "1");
      ExtendsTrans(t, t1, t2);
      ExtendsTrans(t, t2, t3);
      ExtendsTrans(t, t3, t4);
      ExtendsTrans(t, t4, FunctionsStep(t));
    }

    // ---- what init builds on a fresh slot ----------------------------------------------------

    /** The gadget directory does not exist yet and makedirs can create it. */
    ghost predicate Creatable(t: Tree) {
      WellFormed(t) && root.Child? && root !in t && CanMakeDirs(t, root)
    }

    /** Every attribute file init writes. */
    function InitFiles(): set<Path> {
      { Attr("idVendor"), Attr("idProduct"), Attr("bcdDevice"), Attr("bcdUSB"),
        Child(StringsDir(), "serialnumber"), Child(StringsDir(), "manufacturer"), Child(StringsDir(), "product"),
        Child(Cfg(), "MaxPower"), Child(CfgStrings(), "configuration"), LunFile(), Removable(), Udc() }
    }

    function AttrLayout(): map<Path, Node> {
      map[ Attr("idVendor") := File("0x1d6b"), Attr("idProduct") := File("0x0104"),
           Attr("bcdDevice") := File("0x0100"), Attr("bcdUSB") := File("0x0200") ]
    }

    function StringsLayout(): map<Path, Node> {
      map[ Child(root, "strings") := Dir, StringsDir() := Dir,
           Child(StringsDir(), "serialnumber") := File("receiveit"),
           Child(StringsDir(), "manufacturer") := File("receiveit"),
           Child(StringsDir(), "product") := File("ReceiveIt") ]
    }

    function ConfigLayout(): map<Path, Node> {
      map[ Configs() := Dir, Cfg() := Dir, Child(Cfg(), "MaxPower") := File("250"),
           Child(Cfg(), "strings") := Dir, CfgStrings() := Dir,
           Child(CfgStrings(), "configuration") := File("Config 1") ]
    }

    function FunctionsLayout(): map<Path, Node> {
      map[ Funcs() := Dir, Acm() := Dir, Ms() := Dir, Lun() := Dir,
           LunFile() := File(abspath(storage.image)), Removable() := File("1") ]
    }

    function LinksLayout(): map<Path, Node> {
      map[ AcmLink() := Link(Acm()), MsLink() := Link(Ms()) ]
    }

    lemma AttributesLayout(t: Tree)
      requires Creatable(t) && rejects !! InitFiles()
      ensures AttributesStep(t) == MakeDirs(t, root) + AttrLayout()
    {
      var base := MakeDirs(t, root);
      MakeDirsWellFormed(t, root);
      BelowRoot(t, Attr("idVendor"));
      BelowRoot(t, Attr("idProduct"));
      BelowRoot(t, Attr("bcdDevice"));
      BelowRoot(t, Attr("bcdUSB"));
    }

    /** Nothing below a missing strings directory exists. */
    lemma StringsFresh(u: Tree)
      requires WellFormed(u) && Child(root, "strings") !in u
      ensures StringsDir() !in u && Child(StringsDir(), "serialnumber") !in u
      ensures Child(StringsDir(), "manufacturer") !in u && Child(StringsDir(), "product") !in u
    {
      NoDescendants(u, Child(root, "strings"));
      assert Within(Child(root, "strings"), StringsDir());
      assert Within(Child(root, "strings"), Child(StringsDir(), "serialnumber"));
      assert Within(Child(root, "strings"), Child(StringsDir(), "manufacturer"));
      assert Within(Child(root, "strings"), Child(StringsDir(), "product"));
    }

    /** On a tree without a strings directory, the strings phase adds exactly its layout. */
    lemma StringsLayoutStep(u: Tree)
      requires WellFormed(u) && IsDir(u, root) && Child(root, "strings") !in u
      requires Child(StringsDir(), "serialnumber") !in rejects && Child(StringsDir(), "manufacturer") !in rejects
      requires Child(StringsDir(), "product") !in rejects
      ensures StringsStep(u) == u + StringsLayout()
    {
      StringsDirs(u);
      StringsWrites(u[Child(root, "strings") := Dir][StringsDir() := Dir]);
      StringsMerge(u);
    }

    /** The makedirs call of the strings phase on a tree without a strings directory. */
    lemma StringsDirs(u: Tree)
      requires WellFormed(u) && IsDir(u, root) && Child(root, "strings") !in u
      ensures TryMakeDirs(u, StringsDir()) == u[Child(root, "strings") := Dir][StringsDir() := Dir]
      ensures var u1 := u[Child(root, "strings") := Dir][StringsDir() := Dir];
        && IsDir(u1, StringsDir()) && Child(StringsDir(), "serialnumber") !in u1
        && Child(StringsDir(), "manufacturer") !in u1 && Child(StringsDir(), "product") !in u1
    {
      StringsFresh(u);
      MakeDirsFresh2(u, root, "strings", "0x409");
    }

    /** The three writes of the strings phase, into a fresh strings directory. */
    lemma StringsWrites(u: Tree)
      requires IsDir(u, StringsDir()) && Child(StringsDir(), "serialnumber") !in u
      requires Child(StringsDir(), "manufacturer") !in u && Child(StringsDir(), "product") !in u
      requires Child(StringsDir(), "serialnumber") !in rejects && Child(StringsDir(), "manufacturer") !in rejects
      requires Child(StringsDir(), "product") !in rejects
      ensures TryWrite(TryWrite(TryWrite(u, Child(StringsDir(), "serialnumber"), "receiveit"),
                                Child(StringsDir(), "manufacturer"), "receiveit"), Child(StringsDir(), "product"), "ReceiveIt")
           == u[Child(StringsDir(), "serialnumber") := File("receiveit")][Child(StringsDir(), "manufacturer") := File("receiveit")]
               [Child(StringsDir(), "product") := File("ReceiveIt")]
    {
    }

    lemma StringsMerge(u: Tree)
      ensures u + StringsLayout() ==
        u[Child(root, "strings") := Dir][StringsDir() := Dir][Child(StringsDir(), "serialnumber") := File("receiveit")]
         [Child(StringsDir(), "manufacturer") := File("receiveit")][Child(StringsDir(), "product") := File("ReceiveIt")]
    {
      var m1 := map[Child(root, "strings") := Dir];
      var m2 := m1[StringsDir() := Dir];
      var m3 := m2[Child(StringsDir(), "serialnumber") := File("receiveit")];
      var m4 := m3[Child(StringsDir(), "manufacturer") := File("receiveit")];
      assert StringsLayout() == m4[Child(StringsDir(), "product") := File("ReceiveIt")];
      MergeUpdate(u, map[], Child(root, "strings"), Dir);
      assert u + map[] == u;
      MergeUpdate(u, m1, StringsDir(), Dir);
      MergeUpdate(u, m2, Child(StringsDir(), "serialnumber"), File("receiveit"));
      MergeUpdate(u, m3, Child(StringsDir(), "manufacturer"), File("receiveit"));
      MergeUpdate(u, m4, Child(StringsDir(), "product"), File("ReceiveIt"));
    }

    /** Nothing below a missing configs directory exists. */
    lemma ConfigFresh(u: Tree)
      requires WellFormed(u) && Configs() !in u
      ensures Cfg() !in u && Child(Cfg(), "MaxPower") !in u && Child(Cfg(), "strings") !in u
      ensures CfgStrings() !in u && Child(CfgStrings(), "configuration") !in u
    {
      NoDescendants(u, Configs());
      assert Within(Configs(), Cfg());
      assert Within(Configs(), Child(Cfg(), "MaxPower"));
      assert Within(Configs(), Child(Cfg(), "strings"));
      assert Within(Configs(), CfgStrings());
      assert Within(Configs(), Child(CfgStrings(), "configuration"));
    }

    /** On a tree without a configs directory, the config phase adds exactly its layout. */
    lemma ConfigLayoutStep(u: Tree)
      requires WellFormed(u) && IsDir(u, root) && Configs() !in u
      requires Child(Cfg(), "MaxPower") !in rejects && Child(CfgStrings(), "configuration") !in rejects
      ensures ConfigStep(u) == u + ConfigLayout()
    {
      ConfigDirs(u);
      var u1 := u[Configs() := Dir][Cfg() := Dir];
      var u2 := TryWrite(u1, Child(Cfg(), "MaxPower"), "250");
      assert u2 == u1[Child(Cfg(), "MaxPower") := File("250")];
      ConfigStringsDirs(u2);
      ConfigMerge(u);
    }

    /** The first makedirs of the config phase on a tree without a configs directory. */
    lemma ConfigDirs(u: Tree)
      requires WellFormed(u) && IsDir(u, root) && Configs() !in u
      ensures TryMakeDirs(u, Cfg()) == u[Configs() := Dir][Cfg() := Dir]
      ensures var u1 := u[Configs() := Dir][Cfg() := Dir];
        && WellFormed(u1) && IsDir(u1, Cfg()) && Child(Cfg(), "MaxPower") !in u1
        && Child(Cfg(), "strings") !in u1 && Child(CfgStrings(), "configuration") !in u1
    {
      ConfigFresh(u);
      MakeDirsFresh2(u, root, "configs", "c.1");
    }

    /** The second makedirs of the config phase and the write after it. */
    lemma ConfigStringsDirs(u: Tree)
      requires WellFormed(u) && IsDir(u, Cfg()) && Child(Cfg(), "strings") !in u && Child(CfgStrings(), "configuration") !in u
      requires Child(CfgStrings(), "configuration") !in rejects
      ensures TryWrite(TryMakeDirs(u, CfgStrings()), Child(CfgStrings(), "configuration"), "Config 1")
           == u[Child(Cfg(), "strings") := Dir][CfgStrings() := Dir][Child(CfgStrings(), "configuration") := File("Config 1")]
    {
      MakeDirsFresh2(u, Cfg(), "strings", "0x409");
    }

    lemma ConfigMerge(u: Tree)
      ensures u + ConfigLayout() ==
        u[Configs() := Dir][Cfg() := Dir][Child(Cfg(), "MaxPower") := File("250")]
         [Child(Cfg(), "strings") := Dir][CfgStrings() := Dir][Child(CfgStrings(), "configuration") := File("Config 1")]
    {
      var m1 := map[Configs() := Dir];
      var m2 := m1[Cfg() := Dir];
      var m3 := m2[Child(Cfg(), "MaxPower") := File("250")];
      var m4 := m3[Child(Cfg(), "strings") := Dir];
      var m5 := m4[CfgStrings() := Dir];
      assert ConfigLayout() == m5[Child(CfgStrings(), "configuration") := File("Config 1")];
      MergeUpdate(u, map[], Configs(), Dir);
      assert u + map[] == u;
      MergeUpdate(u, m1, Cfg(), Dir);
      MergeUpdate(u, m2, Child(Cfg(), "MaxPower"), File("250"));
      MergeUpdate(u, m3, Child(Cfg(), "strings"), Dir);
      MergeUpdate(u, m4, CfgStrings(), Dir);
      MergeUpdate(u, m5, Child(CfgStrings(), "configuration"), File("Config 1"));
    }

    /** Nothing below a missing functions directory exists. */
    lemma FunctionsFresh(u: Tree)
      requires WellFormed(u) && Funcs() !in u
      ensures Acm() !in u && Ms() !in u && Lun() !in u && LunFile() !in u && Removable() !in u
    {
      NoDescendants(u, Funcs());
      assert Within(Funcs(), Acm());
      assert Within(Funcs(), Ms());
      assert Within(Funcs(), Lun());
      assert Within(Funcs(), LunFile());
      assert Within(Funcs(), Removable());
    }

    /** The three makedirs calls of the functions phase on a tree without a functions directory. */
    lemma FunctionsDirs(u: Tree)
      requires WellFormed(u) && IsDir(u, root) && Funcs() !in u
      ensures TryMakeDirs(TryMakeDirs(TryMakeDirs(u, Acm()), Ms()), Lun()) == u[Funcs() := Dir][Acm() := Dir][Ms() := Dir][Lun() := Dir]
      ensures var u3 := u[Funcs() := Dir][Acm() := Dir][Ms() := Dir][Lun() := Dir];
        IsDir(u3, Lun()) && LunFile() !in u3 && Removable() !in u3
    {
      FunctionsFresh(u);
      MakeDirsFresh2(u, root, "functions", "acm.usb0");
      var u1 := u[Funcs() := Dir][Acm() := Dir];
      MakeDirsFresh(u1, Funcs(), "mass_storage.0");
      var u2 := u1[Ms() := Dir];
      MakeDirsFresh(u2, Ms(), "lun.0");
    }

    /** On a tree without a functions directory, the functions phase adds exactly its layout. */
    lemma FunctionsLayoutStep(u: Tree)
      requires WellFormed(u) && IsDir(u, root) && Funcs() !in u && LunFile() !in rejects && Removable() !in rejects
      ensures FunctionsStep(u) == u + FunctionsLayout()
    {
      FunctionsDirs(u);
      FunctionsWrites(u[Funcs() := Dir][Acm() := Dir][Ms() := Dir][Lun() := Dir]);
      FunctionsCompose(u);
    }

    lemma FunctionsCompose(u: Tree)
      requires TryMakeDirs(TryMakeDirs(TryMakeDirs(u, Acm()), Ms()), Lun()) == u[Funcs() := Dir][Acm() := Dir][Ms() := Dir][Lun() := Dir]
      requires TryWrite(TryWrite(u[Funcs() := Dir][Acm() := Dir][Ms() := Dir][Lun() := Dir], LunFile(), abspath(storage.image)), Removable(), "1")
           == u[Funcs() := Dir][Acm() := Dir][Ms() := Dir][Lun() := Dir][LunFile() := File(abspath(storage.image))][Removable() := File("1")]
      ensures FunctionsStep(u) == u + FunctionsLayout()
    {
      FunctionsMerge(u);
    }

    /** The two attribute writes of the functions phase, into a fresh LUN directory. */
    lemma FunctionsWrites(u: Tree)
      requires IsDir(u, Lun()) && LunFile() !in u && Removable() !in u
      requires LunFile() !in rejects && Removable() !in rejects
      ensures TryWrite(TryWrite(u, LunFile(), abspath(storage.image)), Removable(), "1")
           == u[LunFile() := File(abspath(storage.image))][Removable() := File("1")]
    {
    }

    lemma FunctionsMerge(u: Tree)
      ensures u + FunctionsLayout() ==
        u[Funcs() := Dir][Acm() := Dir][Ms() := Dir][Lun() := Dir]
         [LunFile() := File(abspath(storage.image))][Removable() := File("1")]
    {
      var m1 := map[Funcs() := Dir];
      var m2 := m1[Acm() := Dir];
      var m3 := m2[Ms() := Dir];
      var m4 := m3[Lun() := Dir];
      var m5 := m4[LunFile() := File(abspath(storage.image))];
      assert FunctionsLayout() == m5[Removable() := File("1")];
      MergeUpdate(u, map[], Funcs(), Dir);
      assert u + map[] == u;
      MergeUpdate(u, m1, Acm(), Dir);
      MergeUpdate(u, m2, Ms(), Dir);
      MergeUpdate(u, m3, Lun(), Dir);
      MergeUpdate(u, m4, LunFile(), File(abspath(storage.image)));
      MergeUpdate(u, m5, Removable(), File("1"));
    }

    /** With c.1 in place and neither link there, both links are made. */
    lemma LinksLayoutStep(u: Tree)
      requires IsDir(u, Cfg()) && AcmLink() !in u && MsLink() !in u
      ensures LinksStep(u) == u + LinksLayout()
    {
      var m1 := map[AcmLink() := Link(Acm())];
      assert LinksLayout() == m1[MsLink() := Link(Ms())];
      MergeUpdate(u, map[], AcmLink(), Link(Acm()));
      assert u + map[] == u;
      MergeUpdate(u, m1, MsLink(), Link(Ms()));
    }

    /** On a tree without a UDC attribute, binding adds exactly that attribute. */
    lemma BindLayoutStep(u: Tree)
      requires |udcs| > 0 && IsDir(u, root) && Udc() !in u && Udc() !in rejects
      ensures BindStep(u) == u + map[Udc() := File(udcs[0])]
    {
      MergeUpdate(u, map[], Udc(), File(udcs[0]));
      assert u + map[] == u;
    }

    /** A path strictly below the gadget directory is neither in a tree without it nor made by makedirs of it. */
    lemma BelowRoot(t: Tree, q: Path)
      requires Creatable(t) && q.Child? && Within(root, q.parent)
      ensures q !in MakeDirs(t, root)
    {
      NoDescendants(t, root);
      assert Within(root, q);
      MakeDirsDomain(t, root, q);
      if Within(q, root) {
        WithinDepth(q, root);
        WithinDepth(root, q.parent);
      }
    }

    /** The entries init creates directly below the gadget directory are all missing after makedirs of it. */
    lemma InitFresh(t: Tree)
      requires Creatable(t)
      ensures var base := MakeDirs(t, root);
        && WellFormed(base) && IsDir(base, root)
        && Child(root, "strings") !in base && Configs() !in base && Funcs() !in base && Udc() !in base
        && AcmLink() !in base && MsLink() !in base
    {
      MakeDirsWellFormed(t, root);
      BelowRoot(t, Child(root, "strings"));
      BelowRoot(t, Configs());
      BelowRoot(t, Funcs());
      BelowRoot(t, Udc());
      assert Within(root, Configs());
      assert Within(root, Cfg());
      BelowRoot(t, AcmLink());
      BelowRoot(t, MsLink());
    }

    // The trees init passes through on a fresh slot, and what each later phase needs of them.

    function AttrsBuilt(t: Tree): Tree { MakeDirs(t, root) + AttrLayout() }
    function StringsBuilt(t: Tree): Tree { AttrsBuilt(t) + StringsLayout() }
    function ConfigBuilt(t: Tree): Tree { StringsBuilt(t) + ConfigLayout() }
    function FunctionsBuilt(t: Tree): Tree { ConfigBuilt(t) + FunctionsLayout() }
    function LinksBuilt(t: Tree): Tree { FunctionsBuilt(t) + LinksLayout() }

    ghost predicate ReadyForStrings(u: Tree) {
      WellFormed(u) && IsDir(u, root) && Child(root, "strings") !in u && Configs() !in u && Funcs() !in u
      && Udc() !in u && AcmLink() !in u && MsLink() !in u
    }

    ghost predicate ReadyForConfig(u: Tree) {
      WellFormed(u) && IsDir(u, root) && Configs() !in u && Funcs() !in u && Udc() !in u && AcmLink() !in u && MsLink() !in u
    }

    ghost predicate ReadyForFunctions(u: Tree) {
      WellFormed(u) && IsDir(u, root) && IsDir(u, Cfg()) && Funcs() !in u && Udc() !in u && AcmLink() !in u && MsLink() !in u
    }

    predicate ReadyForLinks(u: Tree) {
      IsDir(u, root) && IsDir(u, Cfg()) && Udc() !in u && AcmLink() !in u && MsLink() !in u
    }

    predicate ReadyForBind(u: Tree) {
      IsDir(u, root) && Udc() !in u
    }

    lemma AttrsReady(t: Tree)
      requires Creatable(t)
      ensures ReadyForStrings(AttrsBuilt(t))
    {
      InitFresh(t);
      var base := MakeDirs(t, root);
      BelowRoot(t, Attr("idVendor"));
      BelowRoot(t, Attr("idProduct"));
      BelowRoot(t, Attr("bcdDevice"));
      BelowRoot(t, Attr("bcdUSB"));
      MergeWellFormed(base, AttrLayout());
    }

    lemma StringsReady(u: Tree)
      requires ReadyForStrings(u)
      ensures ReadyForConfig(u + StringsLayout())
    {
      StringsFresh(u);
      MergeWellFormed(u, StringsLayout());
    }

    lemma ConfigReady(u: Tree)
      requires ReadyForConfig(u)
      ensures ReadyForFunctions(u + ConfigLayout())
    {
      ConfigFresh(u);
      MergeWellFormed(u, ConfigLayout());
    }

    lemma FunctionsReady(u: Tree)
      requires ReadyForFunctions(u)
      ensures ReadyForLinks(u + FunctionsLayout())
    {
    }

    lemma LinksReady(u: Tree)
      requires ReadyForLinks(u)
      ensures ReadyForBind(u + LinksLayout())
    {
    }

    lemma StringsBuiltReady(t: Tree)
      requires Creatable(t)
      ensures ReadyForConfig(StringsBuilt(t))
    {
      AttrsReady(t);
      StringsReady(AttrsBuilt(t));
    }

    lemma ConfigBuiltReady(t: Tree)
      requires Creatable(t)
      ensures ReadyForFunctions(ConfigBuilt(t))
    {
      StringsBuiltReady(t);
      ConfigReady(StringsBuilt(t));
    }

    lemma FunctionsBuiltReady(t: Tree)
      requires Creatable(t)
      ensures ReadyForLinks(FunctionsBuilt(t))
    {
      ConfigBuiltReady(t);
      FunctionsReady(ConfigBuilt(t));
    }

    // Each phase of init on the tree the previous phases left behind.

    lemma StringsStage(t: Tree)
      requires Creatable(t)
      requires Child(StringsDir(), "serialnumber") !in rejects && Child(StringsDir(), "manufacturer") !in rejects
      requires Child(StringsDir(), "product") !in rejects
      ensures StringsStep(AttrsBuilt(t)) == StringsBuilt(t)
    {
      AttrsReady(t);
      StringsLayoutStep(AttrsBuilt(t));
    }

    lemma ConfigStage(t: Tree)
      requires Creatable(t)
      requires Child(Cfg(), "MaxPower") !in rejects && Child(CfgStrings(), "configuration") !in rejects
      ensures ConfigStep(StringsBuilt(t)) == ConfigBuilt(t)
    {
      StringsBuiltReady(t);
      ConfigLayoutStep(StringsBuilt(t));
    }

    lemma FunctionsStage(t: Tree)
      requires Creatable(t) && LunFile() !in rejects && Removable() !in rejects
      ensures FunctionsStep(ConfigBuilt(t)) == FunctionsBuilt(t)
    {
      ConfigBuiltReady(t);
      FunctionsLayoutStep(ConfigBuilt(t));
    }

    lemma LinksStage(t: Tree)
      requires Creatable(t)
      ensures LinksStep(FunctionsBuilt(t)) == LinksBuilt(t)
    {
      FunctionsBuiltReady(t);
      LinksLayoutStep(FunctionsBuilt(t));
    }

    lemma BindStage(t: Tree)
      requires Creatable(t) && |udcs| > 0 && Udc() !in rejects
      ensures BindStep(LinksBuilt(t)) == LinksBuilt(t) + map[Udc() := File(udcs[0])]
    {
      FunctionsBuiltReady(t);
      LinksReady(FunctionsBuilt(t));
      BindLayoutStep(LinksBuilt(t));
    }

    /**
     * On a fresh slot, with every attribute write accepted, init builds
     * exactly the gadget layout: the gadget directory, its identity
     * attributes, strings, configuration c.1, both functions linked into it,
     * and the binding to the first UDC.
     */
    lemma InitLayout(t: Tree)
      requires Creatable(t) && |udcs| > 0 && rejects !! InitFiles()
      ensures InitTree(t) == MakeDirs(t, root) + AttrLayout() + StringsLayout() + ConfigLayout()
                             + FunctionsLayout() + LinksLayout() + map[Udc() := File(udcs[0])]
    {
      assert Child(StringsDir(), "serialnumber") in InitFiles() && Child(StringsDir(), "manufacturer") in InitFiles();
      assert Child(StringsDir(), "product") in InitFiles() && Child(Cfg(), "MaxPower") in InitFiles();
      assert Child(CfgStrings(), "configuration") in InitFiles() && LunFile() in InitFiles();
      assert Removable() in InitFiles() && Udc() in InitFiles();
      AttributesLayout(t);
      StringsStage(t);
      ConfigStage(t);
      FunctionsStage(t);
      LinksStage(t);
      BindStage(t);
    }

    /** What init's steps may rely on of the tree it started from: a gadget directory whose parent exists. */
    ghost predicate GadgetBase(t0: Tree) {
      WellFormed(t0) && root.Child? && IsDir(t0, root.parent)
    }

    lemma OutsideTryMakeDirs(t0: Tree, t: Tree, p: Path)
      requires GadgetBase(t0) && SameOutside(t0, t, root) && Within(root, p)
      ensures SameOutside(t0, TryMakeDirs(t, p), root)
    {
      if CanMakeDirs(t, p) {
        SameOutsideMakeDirs(t0, t, root, p);
      }
    }

    lemma OutsideTryWrite(t0: Tree, t: Tree, p: Path, s: string)
      requires SameOutside(t0, t, root) && Within(root, p)
      ensures SameOutside(t0, TryWrite(t, p, s), root)
    {
      SameOutsideUpdate(t0, t, root, p, File(s));
    }

    lemma AttributesOutside(t0: Tree, t: Tree)
      requires GadgetBase(t0) && SameOutside(t0, t, root)
      ensures SameOutside(t0, AttributesStep(t), root)
    {
      assert Within(root, root);
      var t1 := TryMakeDirs(t, root);
      OutsideTryMakeDirs(t0, t, root);
      var t2 := TryWrite(t1, Attr("idVendor"), "0x1d6b");
      OutsideTryWrite(t0, t1, Attr("idVendor"), "0x1d6b");
      var t3 := TryWrite(t2, Attr("idProduct"), "0x0104");
      OutsideTryWrite(t0, t2, Attr("idProduct"), "0x0104");
      var t4 := TryWrite(t3, Attr("bcdDevice"), "0x0100");
      OutsideTryWrite(t0, t3, Attr("bcdDevice"), "0x0100");
      OutsideTryWrite(t0, t4, Attr("bcdUSB"), "0x0200");
    }

    lemma StringsOutside(t0: Tree, t: Tree)
      requires GadgetBase(t0) && SameOutside(t0, t, root)
      ensures SameOutside(t0, StringsStep(t), root)
    {
      WithinChild(root, root, "strings");
      WithinChild(root, Child(root, "strings"), "0x409");
      var t1 := TryMakeDirs(t, StringsDir());
      OutsideTryMakeDirs(t0, t, StringsDir());
      var t2 := TryWrite(t1, Child(StringsDir(), "serialnumber"), "receiveit");
      OutsideTryWrite(t0, t1, Child(StringsDir(), "serialnumber"), "receiveit");
      var t3 := TryWrite(t2, Child(StringsDir(), "manufacturer"), "receiveit");
      OutsideTryWrite(t0, t2, Child(StringsDir(), "manufacturer"), "receiveit");
      OutsideTryWrite(t0, t3, Child(StringsDir(), "product"), "ReceiveIt");
    }

    lemma ConfigOutside(t0: Tree, t: Tree)
      requires GadgetBase(t0) && SameOutside(t0, t, root)
      ensures SameOutside(t0, ConfigStep(t), root)
    {
      WithinChild(root, Configs(), "c.1");
      WithinChild(root, Cfg(), "strings");
      WithinChild(root, Child(Cfg(), "strings"), "0x409");
      var t1 := TryMakeDirs(t, Cfg());
      OutsideTryMakeDirs(t0, t, Cfg());
      var t2 := TryWrite(t1, Child(Cfg(), "MaxPower"), "250");
      OutsideTryWrite(t0, t1, Child(Cfg(), "MaxPower"), "250");
      var t3 := TryMakeDirs(t2, CfgStrings());
      OutsideTryMakeDirs(t0, t2, CfgStrings());
      OutsideTryWrite(t0, t3, Child(CfgStrings(), "configuration"), "Config 1");
    }

    lemma FunctionsOutside(t0: Tree, t: Tree)
      requires GadgetBase(t0) && SameOutside(t0, t, root)
      ensures SameOutside(t0, FunctionsStep(t), root)
    {
      WithinChild(root, Funcs(), "acm.usb0");
      WithinChild(root, Funcs(), "mass_storage.0");
      WithinChild(root, Ms(), "lun.0");
      var t1 := TryMakeDirs(t, Acm());
      OutsideTryMakeDirs(t0, t, Acm());
      var t2 := TryMakeDirs(t1, Ms());
      OutsideTryMakeDirs(t0, t1, Ms());
      var t3 := TryMakeDirs(t2, Lun());
      OutsideTryMakeDirs(t0, t2, Lun());
      var t4 := TryWrite(t3, LunFile(), abspath(storage.image));
      OutsideTryWrite(t0, t3, LunFile(), abspath(storage.image));
      OutsideTryWrite(t0, t4, Removable(), "1");
    }

    lemma LinksOutside(t0: Tree, t: Tree)
      requires SameOutside(t0, t, root)
      ensures SameOutside(t0, LinksStep(t), root)
    {
      WithinChild(root, Configs(), "c.1");
      var t1 := if Exists(t, AcmLink()) then t else Symlink(t, Acm(), AcmLink());
      SameOutsideUpdate(t0, t, root, AcmLink(), Link(Acm()));
      SameOutsideUpdate(t0, t1, root, MsLink(), Link(Ms()));
    }

    /** Init changes nothing outside the gadget directory, whatever its writes do. */
    lemma InitOutside(t: Tree)
      requires GadgetBase(t) && |udcs| > 0
      ensures SameOutside(t, InitTree(t), root)
    {
      var a := AttributesStep(t);
      AttributesOutside(t, t);
      var s := StringsStep(a);
      StringsOutside(t, a);
      var c := ConfigStep(s);
      ConfigOutside(t, s);
      var f := FunctionsStep(c);
      FunctionsOutside(t, c);
      var l := LinksStep(f);
      LinksOutside(t, f);
      OutsideTryWrite(t, l, Udc(), udcs[0]);
    }

    /**
     * deinit undoes init: on a slot without a gadget directory whose parent
     * exists, removing the gadget directory from the tree init built gives
     * back the tree init started from, whichever attribute writes failed.
     */
    lemma DeinitUndoesInit(t: Tree)
      requires Creatable(t) && IsDir(t, root.parent) && |udcs| > 0
      ensures Prune(InitTree(t), root) == t
    {
      InitOutside(t);
      NoDescendants(t, root);
      PruneSameOutside(t, InitTree(t), root);
    }

    // ---- the calls each phase issues ------------------------------------------------------

    function AttributesCalls(): seq<Call> {
      [ MakeDirsCall(root), WriteCall(Attr("idVendor"), "0x1d6b"), WriteCall(Attr("idProduct"), "0x0104"),
        WriteCall(Attr("bcdDevice"), "0x0100"), WriteCall(Attr("bcdUSB"), "0x0200") ]
    }

    function StringsCalls(): seq<Call> {
      [ MakeDirsCall(StringsDir()), WriteCall(Child(StringsDir(), "serialnumber"), "receiveit"),
        WriteCall(Child(StringsDir(), "manufacturer"), "receiveit"), WriteCall(Child(StringsDir(), "product"), "ReceiveIt") ]
    }

    function ConfigCalls(): seq<Call> {
      [ MakeDirsCall(Cfg()), WriteCall(Child(Cfg(), "MaxPower"), "250"),
        MakeDirsCall(CfgStrings()), WriteCall(Child(CfgStrings(), "configuration"), "Config 1") ]
    }

    function FunctionsCalls(): seq<Call> {
      [ MakeDirsCall(Acm()), MakeDirsCall(Ms()), MakeDirsCall(Lun()),
        WriteCall(LunFile(), abspath(storage.image)), WriteCall(Removable(), "1") ]
    }

    /** The symlink calls of the link phase: one per link that is not reachable yet, unless the first raises. */
    function LinksCalls(t: Tree): seq<Call> {
      var acm := if Exists(t, AcmLink()) then [] else [SymlinkCall(Acm(), AcmLink())];
      if !Exists(t, AcmLink()) && !CanSymlink(t, AcmLink()) then acm
      else
        var t1 := if Exists(t, AcmLink()) then t else Symlink(t, Acm(), AcmLink());
        acm + (if Exists(t1, MsLink()) then [] else [SymlinkCall(Ms(), MsLink())])
    }

    /** Every call init issues once the image exists, in order. */
    function InitCalls(t: Tree): seq<Call>
      requires |udcs| > 0
    {
      AttributesCalls() + StringsCalls() + ConfigCalls() + FunctionsCalls()
        + LinksCalls(FunctionsStep(ConfigStep(StringsStep(AttributesStep(t))))) + [WriteCall(Udc(), udcs[0])]
    }

    /** On a fresh slot with every write accepted, the first four phases build the functions' tree. */
    lemma FunctionsBuiltBy(t: Tree)
      requires Creatable(t) && rejects !! InitFiles()
      ensures FunctionsStep(ConfigStep(StringsStep(AttributesStep(t)))) == FunctionsBuilt(t)
    {
      assert Child(StringsDir(), "serialnumber") in InitFiles() && Child(StringsDir(), "manufacturer") in InitFiles();
      assert Child(StringsDir(), "product") in InitFiles() && Child(Cfg(), "MaxPower") in InitFiles();
      assert Child(CfgStrings(), "configuration") in InitFiles() && LunFile() in InitFiles();
      assert Removable() in InitFiles();
      AttributesLayout(t);
      StringsStage(t);
      ConfigStage(t);
      FunctionsStage(t);
    }

    /** With c.1 in place and neither link there, the link phase issues both symlinks. */
    lemma LinksCallsReady(u: Tree)
      requires ReadyForLinks(u)
      ensures LinksCalls(u) == [SymlinkCall(Acm(), AcmLink()), SymlinkCall(Ms(), MsLink())]
    {
      var u1 := Symlink(u, Acm(), AcmLink());
      assert !Exists(u1, MsLink());
    }

    lemma AppendTwoThenOne(l: seq<Call>, a: Call, b: Call, c: Call)
      ensures l + [a, b] + [c] == l + [a, b, c]
    {
      assert [a, b] + [c] == [a, b, c];
      LogAppend(l, [a, b], [c]);
    }

    lemma AppendFour(l: seq<Call>, a: Call, b: Call, c: Call, d: Call)
      ensures l + [a] + [b] + [c] + [d] == l + [a, b, c, d]
    {
      assert [a] + [b] + [c] + [d] == [a, b, c, d];
    }

    lemma AppendTwo(l: seq<Call>, a: Call, b: Call)
      ensures l + [a] + [b] == l + [a, b]
    {
      assert [a] + [b] == [a, b];
    }

    /** Appending in two steps appends the concatenation. */
    lemma LogAppend(l: seq<Call>, a: seq<Call>, b: seq<Call>)
      ensures l + a + b == l + (a + b)
    {
    }

    /**
     * On a fresh slot with every write accepted, init issues every call of
     * the layout in order, both symlinks included, and binds last.
     */
    lemma InitCallsFresh(t: Tree)
      requires Creatable(t) && |udcs| > 0 && rejects !! InitFiles()
      ensures InitCalls(t) == AttributesCalls() + StringsCalls() + ConfigCalls() + FunctionsCalls()
        + [SymlinkCall(Acm(), AcmLink()), SymlinkCall(Ms(), MsLink()), WriteCall(Udc(), udcs[0])]
    {
      FunctionsBuiltBy(t);
      FunctionsBuiltReady(t);
      LinksCallsReady(FunctionsBuilt(t));
      AppendTwoThenOne(AttributesCalls() + StringsCalls() + ConfigCalls() + FunctionsCalls(),
        SymlinkCall(Acm(), AcmLink()), SymlinkCall(Ms(), MsLink()), WriteCall(Udc(), udcs[0]));
    }

    // ---- init, phase by phase, as methods ---------------------------------------------------

    method SetAttributes()
      requires Valid()
      modifies this
      ensures Valid() && tree == AttributesStep(old(tree))
      ensures log == old(log) + AttributesCalls()
    {
      var _ := EnsureDir(root);
      var _ := WriteFile(Attr("idVendor"), "0x1d6b");
      var _ := WriteFile(Attr("idProduct"), "0x0104");
      var _ := WriteFile(Attr("bcdDevice"), "0x0100");
      var _ := WriteFile(Attr("bcdUSB"), "0x0200");
    }

    method SetStrings()
      requires Valid()
      modifies this
      ensures Valid() && tree == StringsStep(old(tree))
      ensures log == old(log) + StringsCalls()
    {
      var strings := StringsDir();
      var _ := EnsureDir(strings);
      var _ := WriteFile(Child(strings, "serialnumber"), "receiveit");
      var _ := WriteFile(Child(strings, "manufacturer"), "receiveit");
      var _ := WriteFile(Child(strings, "product"), "ReceiveIt");
    }

    method SetConfig()
      requires Valid()
      modifies this
      ensures Valid() && tree == ConfigStep(old(tree))
      ensures log == old(log) + ConfigCalls()
    {
      var cfg := Cfg();
      var _ := EnsureDir(cfg);
      var _ := WriteFile(Child(cfg, "MaxPower"), "250");
      var cfgStrings := CfgStrings();
      var _ := EnsureDir(cfgStrings);
      var _ := WriteFile(Child(cfgStrings, "configuration"), "Config 1");
    }

    method SetFunctions()
      requires Valid()
      modifies this
      ensures Valid() && tree == FunctionsStep(old(tree))
      ensures log == old(log) + FunctionsCalls()
    {
      var _ := EnsureDir(Acm());
      var _ := EnsureDir(Ms());
      var _ := EnsureDir(Lun());
      var _ := WriteFile(LunFile(), abspath(storage.image));
      // the exception handler around this write never runs: _write swallows its own
      var _ := WriteFile(Removable(), "1");
    }

    method LinkFunctions()
      requires Valid()
      modifies this
      ensures Valid() && tree == LinksStep(old(tree))
      ensures log == old(log) + LinksCalls(old(tree))
    {
      if !Exists(tree, AcmLink()) {
        var ok := MakeLink(Acm(), AcmLink());
        if !ok {
          // os.symlink raised: the rest of the try block is skipped
          return;
        }
      }
      if !Exists(tree, MsLink()) {
        var _ := MakeLink(Ms(), MsLink());
      }
    }

    /** Everything init does once the image exists: all phases, then the bind. */
    method Build()
      requires Valid() && |udcs| > 0
      modifies this
      ensures Valid() && tree == InitTree(old(tree))
      ensures log == old(log) + InitCalls(old(tree))
    {
      ghost var t0, l0 := tree, log;
      SetAttributes();
      SetStrings();
      LogAppend(l0, AttributesCalls(), StringsCalls());
      SetConfig();
      LogAppend(l0, AttributesCalls() + StringsCalls(), ConfigCalls());
      SetFunctions();
      LogAppend(l0, AttributesCalls() + StringsCalls() + ConfigCalls(), FunctionsCalls());
      ghost var u := tree;
      LinkFunctions();
      LogAppend(l0, AttributesCalls() + StringsCalls() + ConfigCalls() + FunctionsCalls(), LinksCalls(u));
      ghost var l1 := log;
      // the UDC list is read again here; it is the same list, and not empty
      var _ := WriteFile(Udc(), udcs[0]);
      LogAppend(l0, AttributesCalls() + StringsCalls() + ConfigCalls() + FunctionsCalls() + LinksCalls(u),
                [WriteCall(Udc(), udcs[0])]);
    }

    /**
     * init.  A gadget that is not ready raises before anything is touched; an
     * existing gadget directory makes it a no-op; a failing image command
     * propagates before the tree is touched.  Otherwise every phase runs and
     * the gadget is bound to the first UDC by the last call.  Existing
     * directories and links are never replaced.
     */
    method Init(h: Storage.Host) returns (result: InitResult, image: seq<Storage.Cmd>)
      requires Valid()
      modifies this
      ensures Valid()
      ensures !old(IsReady()) ==> result == NotReady && image == [] && tree == old(tree) && log == old(log)
      ensures old(IsReady()) && old(IsInitialized()) ==>
        result == AlreadyCreated && image == [] && tree == old(tree) && log == old(log)
      ensures old(IsReady()) && !old(IsInitialized()) ==>
        && image == Storage.CreateTrace(storage, h)
        && (Storage.CreateOutcome(storage, h).Raised? ==>
              result == ImageFailed(Storage.CreateOutcome(storage, h).cmd) && tree == old(tree) && log == old(log))
        && (Storage.CreateOutcome(storage, h) == Storage.Completed ==>
              && result == Started && tree == InitTree(old(tree)) && log == old(log) + InitCalls(old(tree)))
      ensures Extends(old(tree), tree)
    {
      if !IsReady() {
        return NotReady, [];
      }
      if IsInitialized() {
        return AlreadyCreated, [];
      }
      var outcome;
      image, outcome := Storage.ImageCreate(storage, h);
      if outcome.Raised? {
        return ImageFailed(outcome.cmd), image;
      }
      InitTreeKeeps(tree);
      Build();
      result := Started;
    }

    // ---- deinit ------------------------------------------------------------------------------

    // ---- the calls deinit issues ---------------------------------------------------------

    /** The unlinks of the c.1 loop, visiting `names` in order: one for each entry that is a link. */
    function UnlinkCalls(t: Tree, names: seq<string>): seq<Call>
      decreases |names|
    {
      if names == [] then []
      else
        var p := Child(Cfg(), names[|names| - 1]);
        UnlinkCalls(t, names[..|names| - 1]) + (if IsLink(t, p) then [UnlinkCall(p)] else [])
    }

    /** The calls of the functions loop, visiting `names` in order: rmtree of each entry, then rmdir when rmtree fails. */
    function RemoveCalls(t: Tree, names: seq<string>): seq<Call>
      decreases |names|
    {
      if names == [] then []
      else
        RemoveCalls(t, names[..|names| - 1]) + RemoveOneCalls(t, Child(Funcs(), names[|names| - 1]))
    }

    /** rmtree of p, then rmdir of p when rmtree fails. */
    function RemoveOneCalls(t: Tree, p: Path): seq<Call> {
      [RmtreeCall(p)] + (if CanRmtree(t, p) then [] else [RmdirCall(p)])
    }

    /** Everything deinit issues after the unbind and before removing the gadget directory. */
    function ClearCalls(t: Tree, links: seq<string>, fns: seq<string>): seq<Call> {
      UnlinkCalls(t, links) + RemoveCalls(t, fns) + [RmtreeCall(Configs()), RmtreeCall(Child(root, "strings"))]
    }

    /** Everything deinit issues on an initialised gadget, visiting c.1 as `links` and functions as `fns`. */
    function DeinitCalls(t: Tree, links: seq<string>, fns: seq<string>): seq<Call> {
      [WriteCall(Udc(), "")] + ClearCalls(t, links, fns) + [RmtreeCall(root)]
    }

    lemma UnlinkCallsStep(t: Tree, names: seq<string>, name: string)
      ensures var p := Child(Cfg(), name);
        UnlinkCalls(t, names + [name]) == UnlinkCalls(t, names) + (if IsLink(t, p) then [UnlinkCall(p)] else [])
    {
      assert (names + [name])[..|names|] == names;
    }

    lemma RemoveCallsStep(t: Tree, names: seq<string>, name: string)
      ensures RemoveCalls(t, names + [name]) == RemoveCalls(t, names) + RemoveOneCalls(t, Child(Funcs(), name))
    {
      assert (names + [name])[..|names|] == names;
    }

    /** The unlinks depend only on the entries of c.1. */
    lemma {:induction false} UnlinkCallsAgree(t0: Tree, t1: Tree, names: seq<string>)
      requires forall n :: Agree(t0, t1, Child(Cfg(), n))
      ensures UnlinkCalls(t0, names) == UnlinkCalls(t1, names)
      decreases |names|
    {
      if names != [] {
        UnlinkCallsAgree(t0, t1, names[..|names| - 1]);
        assert Agree(t0, t1, Child(Cfg(), names[|names| - 1]));
      }
    }

    /** The functions loop's calls depend only on the entries of functions. */
    lemma {:induction false} RemoveCallsAgree(t0: Tree, t1: Tree, names: seq<string>)
      requires forall n :: Agree(t0, t1, Child(Funcs(), n))
      ensures RemoveCalls(t0, names) == RemoveCalls(t1, names)
      decreases |names|
    {
      if names != [] {
        RemoveCallsAgree(t0, t1, names[..|names| - 1]);
        assert Agree(t0, t1, Child(Funcs(), names[|names| - 1]));
      }
    }

    /** c is an unlink, of a link directly inside c.1 whose name is among `names`. */
    predicate UnlinkOfVisited(t: Tree, names: seq<string>, c: Call) {
      c.UnlinkCall? && c.path.Child? && c.path.parent == Cfg() && c.path.name in names && IsLink(t, c.path)
    }

    /** c is an rmtree or rmdir of an entry of functions whose name is among `names`. */
    predicate RemovalOfVisited(names: seq<string>, c: Call) {
      (c.RmtreeCall? || c.RmdirCall?) && c.path.Child? && c.path.parent == Funcs() && c.path.name in names
    }

    /** No call occurs twice. */
    predicate NoRepeats(c: seq<Call>) {
      forall i, j :: 0 <= i < j < |c| ==> c[i] != c[j]
    }

    /**
     * Visiting distinct names, the c.1 loop unlinks each visited link exactly
     * once and issues nothing else.
     */
    lemma {:induction false} UnlinkCallsExact(t: Tree, names: seq<string>)
      requires forall i, j :: 0 <= i < j < |names| ==> names[i] != names[j]
      ensures forall i :: 0 <= i < |UnlinkCalls(t, names)| ==> UnlinkOfVisited(t, names, UnlinkCalls(t, names)[i])
      ensures forall n :: n in names && IsLink(t, Child(Cfg(), n)) ==> UnlinkCall(Child(Cfg(), n)) in UnlinkCalls(t, names)
      ensures NoRepeats(UnlinkCalls(t, names))
      decreases |names|
    {
      if names != [] {
        var init, last := names[..|names| - 1], names[|names| - 1];
        assert names == init + [last];
        UnlinkCallsExact(t, init);
        UnlinkCallsStep(t, init, last);
        assert last !in init;
      }
    }

    /**
     * Visiting distinct names, the functions loop issues one rmtree for each,
     * an rmdir right after it exactly when rmtree fails, and nothing else,
     * every call once.
     */
    lemma RemoveCallsExact(t: Tree, names: seq<string>)
      requires forall i, j :: 0 <= i < j < |names| ==> names[i] != names[j]
      ensures forall i :: 0 <= i < |RemoveCalls(t, names)| ==> RemovalOfVisited(names, RemoveCalls(t, names)[i])
      ensures forall n :: n in names ==> RmtreeCall(Child(Funcs(), n)) in RemoveCalls(t, names)
      ensures forall n :: n in names ==>
        (RmdirCall(Child(Funcs(), n)) in RemoveCalls(t, names) <==> !CanRmtree(t, Child(Funcs(), n)))
      ensures forall i :: 0 <= i < |RemoveCalls(t, names)| && RemoveCalls(t, names)[i].RmdirCall? ==>
        0 < i && RemoveCalls(t, names)[i - 1] == RmtreeCall(RemoveCalls(t, names)[i].path)
      ensures NoRepeats(RemoveCalls(t, names))
    {
      RemoveCallsVisited(t, names);
      RemoveCallsRmdirAfter(t, names);
      RemoveCallsCover(t, names);
      RemoveCallsOnce(t, names);
    }

    lemma {:induction false} RemoveCallsVisited(t: Tree, names: seq<string>)
      ensures forall i :: 0 <= i < |RemoveCalls(t, names)| ==> RemovalOfVisited(names, RemoveCalls(t, names)[i])
      decreases |names|
    {
      if names != [] {
        var init, last := names[..|names| - 1], names[|names| - 1];
        assert names == init + [last];
        RemoveCallsVisited(t, init);
        RemoveCallsStep(t, init, last);
      }
    }

    lemma {:induction false} RemoveCallsRmdirAfter(t: Tree, names: seq<string>)
      ensures forall i :: 0 <= i < |RemoveCalls(t, names)| && RemoveCalls(t, names)[i].RmdirCall? ==>
        0 < i && RemoveCalls(t, names)[i - 1] == RmtreeCall(RemoveCalls(t, names)[i].path)
      decreases |names|
    {
      if names != [] {
        var init, last := names[..|names| - 1], names[|names| - 1];
        RemoveCallsRmdirAfter(t, init);
        RemoveCallsStep(t, init, last);
      }
    }

    lemma {:induction false} RemoveCallsCover(t: Tree, names: seq<string>)
      requires forall i, j :: 0 <= i < j < |names| ==> names[i] != names[j]
      ensures forall n :: n in names ==> RmtreeCall(Child(Funcs(), n)) in RemoveCalls(t, names)
      ensures forall n :: n in names ==>
        (RmdirCall(Child(Funcs(), n)) in RemoveCalls(t, names) <==> !CanRmtree(t, Child(Funcs(), n)))
      decreases |names|
    {
      if names != [] {
        var init, last := names[..|names| - 1], names[|names| - 1];
        assert names == init + [last];
        RemoveCallsVisited(t, init);
        RemoveCallsCover(t, init);
        RemoveCallsStep(t, init, last);
        assert last !in init;
        assert RmdirCall(Child(Funcs(), last)) !in RemoveCalls(t, init);
      }
    }

    lemma {:induction false} RemoveCallsOnce(t: Tree, names: seq<string>)
      requires forall i, j :: 0 <= i < j < |names| ==> names[i] != names[j]
      ensures NoRepeats(RemoveCalls(t, names))
      decreases |names|
    {
      if names != [] {
        var init, last := names[..|names| - 1], names[|names| - 1];
        assert names == init + [last];
        RemoveCallsVisited(t, init);
        RemoveCallsOnce(t, init);
        RemoveCallsStep(t, init, last);
        assert last !in init;
      }
    }

    /** Visiting c.1 in a listing order, deinit unlinks exactly the links directly inside it. */
    lemma UnlinksEveryLink(t: Tree, links: seq<string>)
      requires WellFormed(t) && Lists(t, Cfg(), links)
      ensures forall n :: UnlinkCall(Child(Cfg(), n)) in UnlinkCalls(t, links) <==> IsLink(t, Child(Cfg(), n))
    {
      UnlinkCallsExact(t, links);
      var c := UnlinkCalls(t, links);
      forall n
        ensures UnlinkCall(Child(Cfg(), n)) in c <==> IsLink(t, Child(Cfg(), n))
      {
        ChildrenMember(t, Cfg(), n);
        if UnlinkCall(Child(Cfg(), n)) in c {
          var i :| 0 <= i < |c| && c[i] == UnlinkCall(Child(Cfg(), n));
          assert c[i].path == Child(Cfg(), n);
        }
        if IsLink(t, Child(Cfg(), n)) {
          assert IsDir(t, Cfg()) && n in links;
        }
      }
    }

    /**
     * Visiting functions in a listing order, deinit issues an rmtree for
     * exactly the entries directly inside it, and an rmdir for exactly those
     * that are not directories.
     */
    lemma RemovesEveryFunction(t: Tree, fns: seq<string>)
      requires WellFormed(t) && Lists(t, Funcs(), fns)
      ensures forall n :: RmtreeCall(Child(Funcs(), n)) in RemoveCalls(t, fns) <==> Child(Funcs(), n) in t
      ensures forall n :: RmdirCall(Child(Funcs(), n)) in RemoveCalls(t, fns) <==>
        Child(Funcs(), n) in t && !CanRmtree(t, Child(Funcs(), n))
    {
      RemoveCallsExact(t, fns);
      var c := RemoveCalls(t, fns);
      forall n
        ensures RmtreeCall(Child(Funcs(), n)) in c <==> Child(Funcs(), n) in t
        ensures RmdirCall(Child(Funcs(), n)) in c <==> Child(Funcs(), n) in t && !CanRmtree(t, Child(Funcs(), n))
      {
        ChildrenMember(t, Funcs(), n);
        if RmtreeCall(Child(Funcs(), n)) in c {
          var i :| 0 <= i < |c| && c[i] == RmtreeCall(Child(Funcs(), n));
          assert c[i].path.name in fns;
        }
        if RmdirCall(Child(Funcs(), n)) in c {
          var i :| 0 <= i < |c| && c[i] == RmdirCall(Child(Funcs(), n));
          assert c[i].path.name in fns;
        }
      }
    }

    /** Unlinking entries of c.1 leaves functions and its entries as they were. */
    lemma UnlinksKeepFunctions(t0: Tree, t1: Tree)
      requires forall q :: q in t1 <==> q in t0 && !(q.Child? && q.parent == Cfg() && t0[q].Link?)
      requires forall q :: q in t1 ==> t1[q] == t0[q]
      ensures Agree(t0, t1, Funcs()) && forall n :: Agree(t0, t1, Child(Funcs(), n))
    {
      assert Funcs() != Cfg();
      forall n
        ensures Agree(t0, t1, Child(Funcs(), n))
      {
        assert Child(Funcs(), n).parent != Cfg();
      }
    }

    /** Writing the UDC attribute leaves c.1, functions and their entries as they were. */
    lemma UnbindKeepsListings(t0: Tree, t1: Tree)
      requires forall q :: q != Udc() ==> Agree(t0, t1, q)
      ensures Agree(t0, t1, Cfg()) && forall n :: Agree(t0, t1, Child(Cfg(), n))
      ensures Agree(t0, t1, Funcs()) && forall n :: Agree(t0, t1, Child(Funcs(), n))
    {
      forall n
        ensures Agree(t0, t1, Child(Cfg(), n)) && Agree(t0, t1, Child(Funcs(), n))
      {
        assert Child(Cfg(), n) != Udc() by { NotBelowSelf(root); }
        assert Child(Funcs(), n) != Udc();
      }
    }

    /**
     * Unlink every symbolic link directly inside c.1, each on its own; other
     * entries stay.  Nothing happens when c.1 cannot be listed.
     */
    method UnlinkConfigLinks() returns (ghost links: seq<string>)
      requires Valid()
      modifies this
      ensures Valid() && OnlyBelow(old(tree), tree, root)
      ensures !IsDir(old(tree), Cfg()) ==> tree == old(tree)
      ensures IsDir(old(tree), Cfg()) ==>
        forall q :: q in tree <==> q in old(tree) && !(q.Child? && q.parent == Cfg() && old(tree)[q].Link?)
      ensures forall q :: q in tree ==> q in old(tree) && tree[q] == old(tree)[q]
      ensures Lists(old(tree), Cfg(), links) && log == old(log) + UnlinkCalls(old(tree), links)
    {
      ghost var t0, l0 := tree, log;
      links := [];
      if IsDir(tree, Cfg()) {
        var names := Children(tree, Cfg());
        VisitedStart(names);
        while names != {}
          invariant Valid() && names <= Children(t0, Cfg())
          invariant LinksGone(t0, tree, Cfg(), names)
          invariant Visited(links, Children(t0, Cfg()), names)
          invariant log == l0 + UnlinkCalls(t0, links)
          decreases names
        {
          var name :| name in names;
          var p := Child(Cfg(), name);
          assert IsLink(tree, p) == IsLink(t0, p);
          UnlinkCallsStep(t0, links, name);
          VisitedStep(links, Children(t0, Cfg()), names, name);
          if IsLink(tree, p) {
            LinksGoneUnlink(t0, tree, Cfg(), names, name);
            var _ := RemoveEntry(p);
          } else {
            LinksGoneSkip(t0, tree, Cfg(), names, name);
          }
          LogAppend(l0, UnlinkCalls(t0, links), if IsLink(t0, p) then [UnlinkCall(p)] else []);
          links := links + [name];
          names := names - {name};
        }
        VisitedLists(t0, Cfg(), links);
        assert Within(root, Cfg());
      } else {
        ListsNone(t0, Cfg());
        assert l0 + [] == l0;
      }
    }

    /** rmtree one entry of functions, then rmdir it when rmtree fails; neither raises. */
    method RemoveFunction(p: Path)
      requires Valid()
      modifies this
      ensures Valid()
      ensures tree == (if CanRmtree(old(tree), p) then Prune(old(tree), p) else old(tree))
      ensures log == old(log) + RemoveOneCalls(old(tree), p)
    {
      var ok := RemoveTree(p);
      if !ok {
        // rmtree refused p, so p is no directory and rmdir refuses it too
        var _ := RemoveDir(p);
      }
    }

    /**
     * rmtree every entry directly inside functions, falling back to rmdir when
     * rmtree fails; a failure on one entry does not stop the others.  Nothing
     * happens when functions cannot be listed.
     */
    method RemoveFunctions() returns (ghost fns: seq<string>)
      requires Valid()
      modifies this
      ensures Valid() && OnlyBelow(old(tree), tree, root)
      ensures !IsDir(old(tree), Funcs()) ==> tree == old(tree)
      ensures IsDir(old(tree), Funcs()) ==>
        forall q :: q in tree <==> q in old(tree) && !InDirChild(old(tree), Funcs(), Children(old(tree), Funcs()), q)
      ensures forall q :: q in tree ==> q in old(tree) && tree[q] == old(tree)[q]
      ensures Lists(old(tree), Funcs(), fns) && log == old(log) + RemoveCalls(old(tree), fns)
    {
      ghost var t0, l0 := tree, log;
      fns := [];
      if IsDir(tree, Funcs()) {
        var names := Children(tree, Funcs());
        ghost var done: set<string> := {};
        InDirChildNone(t0, Funcs());
        VisitedStart(names);
        while names != {}
          invariant Valid() && names + done == Children(t0, Funcs()) && names !! done
          invariant forall q :: q in tree <==> q in t0 && !InDirChild(t0, Funcs(), done, q)
          invariant forall q :: q in tree ==> tree[q] == t0[q]
          invariant Visited(fns, Children(t0, Funcs()), names)
          invariant log == l0 + RemoveCalls(t0, fns)
          decreases names
        {
          var name :| name in names;
          VisitedStep(fns, Children(t0, Funcs()), names, name);
          names := names - {name};
          var p := Child(Funcs(), name);
          InDirChildDepth(t0, Funcs(), done, Funcs());
          assert RemoveOneCalls(tree, p) == RemoveOneCalls(t0, p) by {
            assert CanRmtree(tree, p) == CanRmtree(t0, p);
          }
          RemoveCallsStep(t0, fns, name);
          forall q
            ensures InDirChild(t0, Funcs(), done + {name}, q) <==>
              InDirChild(t0, Funcs(), done, q) || (p in t0 && t0[p].Dir? && Within(p, q))
          {
            InDirChildAdd(t0, Funcs(), done, name, q);
          }
          RemoveFunction(p);
          LogAppend(l0, RemoveCalls(t0, fns), RemoveOneCalls(t0, p));
          fns := fns + [name];
          done := done + {name};
        }
        forall q | q in t0 && InDirChild(t0, Funcs(), done, q)
          ensures Below(root, q)
        {
          InDirChildBelow(t0, Funcs(), done, q);
          WithinTrans(root, Funcs(), q.parent);
        }
        VisitedLists(t0, Funcs(), fns);
      } else {
        ListsNone(t0, Funcs());
        assert l0 + [] == l0;
      }
    }

    /** Everything deinit removes before the gadget directory itself, each step a best effort. */
    method ClearGadget() returns (ghost links: seq<string>, ghost fns: seq<string>)
      requires Valid()
      modifies this
      ensures Valid() && OnlyBelow(old(tree), tree, root)
      ensures Lists(old(tree), Cfg(), links) && Lists(old(tree), Funcs(), fns)
      ensures log == old(log) + ClearCalls(old(tree), links, fns)
    {
      ghost var t0, l0 := tree, log;
      links := UnlinkConfigLinks();
      ghost var t1, l1 := tree, log;
      fns := RemoveFunctions();
      UnlinksKeepFunctions(t0, t1);
      ListsAgree(t0, t1, Funcs(), fns);
      RemoveCallsAgree(t0, t1, fns);
      OnlyBelowTrans(t0, t1, tree, root);
      ghost var t2 := tree;
      var _ := RemoveTree(Configs());
      PruneChildOnlyBelow(t2, root, "configs");
      OnlyBelowTrans(t0, t2, tree, root);
      ghost var t3 := tree;
      var _ := RemoveTree(Child(root, "strings"));
      PruneChildOnlyBelow(t3, root, "strings");
      OnlyBelowTrans(t0, t3, tree, root);
      LogAppend(l0, UnlinkCalls(t0, links), RemoveCalls(t0, fns));
      AppendTwo(l0 + (UnlinkCalls(t0, links) + RemoveCalls(t0, fns)), RmtreeCall(Configs()), RmtreeCall(Child(root, "strings")));
      LogAppend(l0, UnlinkCalls(t0, links) + RemoveCalls(t0, fns), [RmtreeCall(Configs()), RmtreeCall(Child(root, "strings"))]);
    }

    /**
     * deinit.  On an initialised gadget: unbind by writing an empty UDC,
     * unlink the configuration's links, remove the functions, then configs,
     * strings and the gadget directory, every step a best effort.  Together
     * they remove the gadget directory and everything below it, and leave
     * the rest of the file system as it was.
     */
    method Deinit() returns (ghost links: seq<string>, ghost fns: seq<string>)
      requires Valid()
      modifies this
      ensures Valid()
      ensures !old(IsInitialized()) ==> tree == old(tree) && log == old(log)
      ensures old(IsInitialized()) ==> tree == Prune(old(tree), root)
      ensures old(IsInitialized()) ==>
        && Lists(old(tree), Cfg(), links) && Lists(old(tree), Funcs(), fns)
        && log == old(log) + DeinitCalls(old(tree), links, fns)
    {
      links, fns := [], [];
      if !IsInitialized() {
        return;
      }
      ghost var t0, l0 := tree, log;
      var _ := WriteFile(Udc(), "");
      ghost var t1 := tree;
      TryWriteKeeps(t0, Udc(), "");
      UnbindKeepsListings(t0, t1);
      links, fns := ClearGadget();
      ListsAgree(t0, t1, Cfg(), links);
      ListsAgree(t0, t1, Funcs(), fns);
      UnlinkCallsAgree(t0, t1, links);
      RemoveCallsAgree(t0, t1, fns);
      OnlyBelowTrans(t0, t1, tree, root);
      NotBelowSelf(root);
      PruneOnlyBelow(t0, tree, root);
      // rmtree of the gadget directory, a directory here, succeeds; the rmdir fallback is not reached
      var _ := RemoveTree(root);
      LogAppend(l0, [WriteCall(Udc(), "")], ClearCalls(t0, links, fns));
      LogAppend(l0, [WriteCall(Udc(), "")] + ClearCalls(t0, links, fns), [RmtreeCall(root)]);
    }

    // ---- remove_mass_storage, add_mass_storage, replace_mass_storage_image --------------------

    /** remove_mass_storage as a tree function: whatever is at c.1/mass_storage.0 is unlinked, unless it is a directory. */
    function RemoveMsTree(t: Tree): Tree {
      if CanUnlink(t, MsLink()) then Unlink(t, MsLink()) else t
    }

    /** add_mass_storage up to the link: the LUN directory, its backing file and removable flag. */
    function FillLun(t: Tree): Tree {
      var t1 := TryMakeDirs(t, Ms());
      var t2 := TryMakeDirs(t1, Lun());
      var t3 := TryWrite(t2, LunFile(), abspath(storage.image));
      TryWrite(t3, Removable(), "1")
    }

    /** Whether the link into c.1 is in place after add_mass_storage, or was made by it. */
    predicate MsLinkable(t: Tree) {
      Exists(t, MsLink()) || CanSymlink(t, MsLink())
    }

    /** add_mass_storage as a tree function: the link is made only when nothing reachable is there. */
    function AddMsTree(t: Tree): Tree {
      var u := FillLun(t);
      if !Exists(u, MsLink()) && CanSymlink(u, MsLink()) then Symlink(u, Ms(), MsLink()) else u
    }

    /** replace_mass_storage_image on an initialised gadget, as a tree function. */
    function ReplaceTree(t: Tree, image: string): Tree {
      var t1 := RemoveMsTree(t);
      var t2 := TryMakeDirs(t1, Lun());
      var t3 := TryWrite(t2, LunFile(), abspath(image));
      AddMsTree(t3)
    }

    /** The calls remove_mass_storage issues: an unlink when anything is at the link path. */
    function RemoveMsCalls(t: Tree): seq<Call> {
      if MsLink() in t then [UnlinkCall(MsLink())] else []
    }

    /** The calls add_mass_storage issues: the LUN, its two attributes, and the symlink unless the link is reachable. */
    function AddMsCalls(t: Tree): seq<Call> {
      FillLunCalls() + MsLinkCalls(FillLun(t))
    }

    function FillLunCalls(): seq<Call> {
      [MakeDirsCall(Ms()), MakeDirsCall(Lun()), WriteCall(LunFile(), abspath(storage.image)), WriteCall(Removable(), "1")]
    }

    function MsLinkCalls(u: Tree): seq<Call> {
      if Exists(u, MsLink()) then [] else [SymlinkCall(Ms(), MsLink())]
    }

    /** The calls replace_mass_storage_image issues on an initialised gadget. */
    function ReplaceCalls(t: Tree, image: string): seq<Call> {
      var t1 := RemoveMsTree(t);
      var t3 := TryWrite(TryMakeDirs(t1, Lun()), LunFile(), abspath(image));
      RemoveMsCalls(t) + [MakeDirsCall(Lun()), WriteCall(LunFile(), abspath(image))] + AddMsCalls(t3)
    }

    /**
     * remove_mass_storage.  An entry at the link path is unlinked (there is
     * none to unlink and the result is still true when it is absent); only a
     * directory there makes the unlink raise, and the result false.
     */
    method RemoveMassStorage() returns (ok: bool)
      requires Valid()
      modifies this
      ensures Valid()
      ensures ok <==> !IsDir(old(tree), MsLink())
      ensures tree == RemoveMsTree(old(tree))
      ensures log == old(log) + RemoveMsCalls(old(tree))
    {
      var p := MsLink();
      if IsLink(tree, p) || Exists(tree, p) {
        ok := RemoveEntry(p);
      } else {
        ok := true;
      }
    }

    /**
     * add_mass_storage.  The LUN is pointed at the configured image, and the
     * function is linked into c.1 only when nothing reachable is at the link
     * path; the result is false only when that symlink raises.
     */
    method AddMassStorage() returns (ok: bool)
      requires Valid()
      modifies this
      ensures Valid() && Extends(old(tree), tree)
      ensures ok == MsLinkable(FillLun(old(tree)))
      ensures tree == AddMsTree(old(tree))
      ensures log == old(log) + AddMsCalls(old(tree))
    {
      ghost var t0, l0 := tree, log;
      var _ := EnsureDir(Ms());
      var _ := EnsureDir(Lun());
      var _ := WriteFile(LunFile(), abspath(storage.image));
      var _ := WriteFile(Removable(), "1");
      AppendFour(l0, MakeDirsCall(Ms()), MakeDirsCall(Lun()), WriteCall(LunFile(), abspath(storage.image)), WriteCall(Removable(), "1"));
      assert tree == FillLun(t0);
      ghost var u := tree;
      if !Exists(tree, MsLink()) {
        ok := MakeLink(Ms(), MsLink());
      } else {
        ok := true;
      }
      LogAppend(l0, FillLunCalls(), MsLinkCalls(u));
    }

    /**
     * replace_mass_storage_image.  Without a gadget directory it reports
     * false and changes nothing.  Otherwise it unlinks the mass-storage
     * function, writes the new image into the LUN, and re-adds the function,
     * which writes the configured image over it.
     */
    method ReplaceMassStorageImage(image: string) returns (ok: bool)
      requires Valid()
      modifies this
      ensures Valid()
      ensures ok == old(IsInitialized())
      ensures !ok ==> tree == old(tree) && log == old(log)
      ensures ok ==> tree == ReplaceTree(old(tree), image)
      ensures ok ==> log == old(log) + ReplaceCalls(old(tree), image)
    {
      if !IsInitialized() {
        return false;
      }
      ghost var t0, l0 := tree, log;
      var _ := RemoveMassStorage();
      var _ := EnsureDir(Lun());
      var _ := WriteFile(LunFile(), abspath(image));
      LogAppend(l0 + RemoveMsCalls(t0), [MakeDirsCall(Lun())], [WriteCall(LunFile(), abspath(image))]);
      LogAppend(l0, RemoveMsCalls(t0), [MakeDirsCall(Lun()), WriteCall(LunFile(), abspath(image))]);
      ghost var u, l1 := tree, log;
      assert u == TryWrite(TryMakeDirs(RemoveMsTree(t0), Lun()), LunFile(), abspath(image));
      var _ := AddMassStorage();
      LogAppend(l0, RemoveMsCalls(t0) + [MakeDirsCall(Lun()), WriteCall(LunFile(), abspath(image))], AddMsCalls(u));
      ok := true;
    }

    // ---- what the mass-storage operations promise ----------------------------------------------

    /** remove_mass_storage touches nothing but the link path, and leaves it empty unless a directory is there. */
    lemma RemoveMsOnly(t: Tree)
      ensures MsLink() in RemoveMsTree(t) <==> IsDir(t, MsLink())
      ensures forall q :: q != MsLink() ==> Agree(t, RemoveMsTree(t), q)
    {
    }

    /** The paths add_mass_storage creates are apart from the others the gadget uses. */
    lemma PathsApart()
      ensures !Within(MsLink(), Lun()) && !Within(AcmLink(), Lun()) && !Within(Cfg(), Lun())
      ensures !Within(Udc(), Lun()) && !Within(Acm(), Lun()) && !Within(LunFile(), Lun())
    {
      NotWithinSameDepth(MsLink(), Lun());
      NotWithinSameDepth(AcmLink(), Lun());
      NotWithinSameDepth(Cfg(), Ms());
      NotWithinSameDepth(Udc(), Funcs());
      assert !Within(Udc(), Ms());
      NotWithinSameDepth(Acm(), Ms());
      NotWithinDeeper(LunFile(), Lun());
    }

    lemma TryMakeDirsAgree(t: Tree, p: Path, q: Path)
      requires !Within(q, p)
      ensures Agree(t, TryMakeDirs(t, p), q)
    {
      MakeDirsAgree(t, p, q);
    }

    /** Filling the LUN touches only the components of lun.0 and its two attributes. */
    lemma FillLunAgree(t: Tree, q: Path)
      requires !Within(q, Lun()) && q != LunFile() && q != Removable()
      ensures Agree(t, FillLun(t), q)
    {
      TryMakeDirsAgree(t, Ms(), q);
      TryMakeDirsAgree(TryMakeDirs(t, Ms()), Lun(), q);
    }

    /** makedirs again, on a tree grown from the one it acted on, changes nothing. */
    lemma TryMakeDirsIdem(t0: Tree, t1: Tree, p: Path)
      requires Extends(TryMakeDirs(t0, p), t1)
      ensures TryMakeDirs(t1, p) == t1
    {
      if CanMakeDirs(t0, p) {
        MakeDirsAllDirs(t0, p);
        AllDirsExtends(MakeDirs(t0, p), t1, p);
        AllDirsNoop(t1, p);
      } else {
        CannotMakeDirsExtends(t0, t1, p);
      }
    }

    /** The same write again changes nothing, as long as the file and its directory look as they did. */
    lemma TryWriteIdem(t0: Tree, t1: Tree, p: Path, s: string)
      requires p.Child? && Agree(TryWrite(t0, p, s), t1, p) && Agree(t0, t1, p.parent)
      ensures TryWrite(t1, p, s) == t1
    {
      if Writable(t0, p) {
        assert t1[p] == File(s);
        assert t1[p := File(s)] == t1;
      }
    }

    /** Each step of add_mass_storage only grows the tree. */
    lemma AddMsExtends(t: Tree)
      requires WellFormed(t)
      ensures Extends(TryMakeDirs(t, Ms()), AddMsTree(t))
      ensures Extends(TryMakeDirs(TryMakeDirs(t, Ms()), Lun()), AddMsTree(t))
    {
      var t1 := TryMakeDirs(t, Ms());
      var t2 := TryMakeDirs(t1, Lun());
      var t3 := TryWrite(t2, LunFile(), abspath(storage.image));
      var t4 := TryWrite(t3, Removable(), "1");
      var u := AddMsTree(t);
      TryMakeDirsKeeps(t, Ms());
      TryMakeDirsKeeps(t1, Lun());
      TryWriteKeeps(t2, LunFile(), abspath(storage.image));
      TryWriteKeeps(t3, Removable(), "1");
      if u != t4 {
        SymlinkWellFormed(t4, Ms(), MsLink());
      }
      ExtendsTrans(t2, t3, t4);
      ExtendsTrans(t2, t4, u);
      ExtendsTrans(t1, t2, u);
    }

    /** add_mass_storage is idempotent: a second call leaves the tree the first call left. */
    lemma AddMsIdempotent(t: Tree)
      requires WellFormed(t)
      ensures AddMsTree(AddMsTree(t)) == AddMsTree(t)
    {
      var t1 := TryMakeDirs(t, Ms());
      var t2 := TryMakeDirs(t1, Lun());
      var t3 := TryWrite(t2, LunFile(), abspath(storage.image));
      var u := AddMsTree(t);
      AddMsExtends(t);
      TryMakeDirsIdem(t, u, Ms());
      TryMakeDirsIdem(t1, u, Lun());
      TryWriteIdem(t2, u, LunFile(), abspath(storage.image));
      TryWriteIdem(t3, u, Removable(), "1");
    }

    /** add_mass_storage never replaces what is already at the link path, nor touches the ACM function or the UDC. */
    lemma AddMsKeeps(t: Tree)
      ensures MsLink() in t ==> Agree(t, AddMsTree(t), MsLink())
      ensures Agree(t, AddMsTree(t), AcmLink()) && Agree(t, AddMsTree(t), Acm()) && Agree(t, AddMsTree(t), Udc())
    {
      PathsApart();
      FillLunAgree(t, MsLink());
      FillLunAgree(t, AcmLink());
      FillLunAgree(t, Acm());
      FillLunAgree(t, Udc());
    }

    /** Once every component of lun.0 is a directory, filling the LUN is two plain writes. */
    lemma FillLunOnLun(w: Tree)
      requires AllDirs(w, Lun()) && LunFile() !in rejects && (LunFile() in w ==> w[LunFile()].File?)
      ensures FillLun(w) == TryWrite(w[LunFile() := File(abspath(storage.image))], Removable(), "1")
    {
      AllDirsNoop(w, Lun());
      AllDirsNoop(w, Ms());
    }

    /** Whatever text the LUN file holds, add_mass_storage overwrites it. */
    lemma LunFileRewrite(w: Tree, x: string)
      requires AllDirs(w, Lun()) && Writable(w, LunFile())
      ensures FillLun(w[LunFile() := File(x)]) == TryWrite(w[LunFile() := File(abspath(storage.image))], Removable(), "1")
    {
      NotWithinDeeper(LunFile(), Lun());
      AllDirsUpdate(w, Lun(), LunFile(), File(x));
      FillLunOnLun(w[LunFile() := File(x)]);
      assert w[LunFile() := File(x)][LunFile() := File(abspath(storage.image))] == w[LunFile() := File(abspath(storage.image))];
    }

    /** The image argument of replace_mass_storage_image makes no difference to the tree it leaves. */
    lemma ReplaceIgnoresImage(t: Tree, a: string, b: string)
      requires WellFormed(t)
      ensures ReplaceTree(t, a) == ReplaceTree(t, b)
    {
      var t1 := RemoveMsTree(t);
      if CanUnlink(t, MsLink()) {
        UnlinkWellFormed(t, MsLink());
      }
      var w := TryMakeDirs(t1, Lun());
      TryMakeDirsKeeps(t1, Lun());
      if Writable(w, LunFile()) {
        WellFormedAllDirs(w, Lun());
        LunFileRewrite(w, abspath(a));
        LunFileRewrite(w, abspath(b));
      }
    }

    /**
     * On a gadget whose LUN can be made and written and whose c.1 exists,
     * replace_mass_storage_image leaves the LUN backed by the configured
     * image, whatever image it was given, the mass-storage link in place, and
     * the ACM link as it was.
     */
    lemma ReplaceLayout(t: Tree, image: string)
      requires WellFormed(t) && IsDir(t, Cfg()) && CanMakeDirs(t, Lun())
      requires LunFile() !in rejects && (LunFile() in t ==> t[LunFile()].File?)
      ensures var r := ReplaceTree(t, image);
        && LunFile() in r && r[LunFile()] == File(abspath(storage.image))
        && MsLink() in r && r[MsLink()] == (if IsDir(t, MsLink()) then Dir else Link(Ms()))
        && Agree(t, r, AcmLink())
    {
      ReplacePrepares(t);
      var t2 := TryMakeDirs(RemoveMsTree(t), Lun());
      ReplaceRelinks(t2, abspath(image));
    }

    /**
     * replace_mass_storage_image writes the new image into the LUN file, and
     * three calls later the configured image over it; no later call writes
     * the LUN file again.
     */
    lemma ReplaceWritesOver(t: Tree, image: string)
      ensures var c, k := ReplaceCalls(t, image), |RemoveMsCalls(t)|;
        && k + 6 <= |c|
        && c[k + 1] == WriteCall(LunFile(), abspath(image))
        && c[k + 4] == WriteCall(LunFile(), abspath(storage.image))
        && forall i :: k + 4 < i < |c| ==> !(c[i].WriteCall? && c[i].path == LunFile())
    {
      var u := TryWrite(TryMakeDirs(RemoveMsTree(t), Lun()), LunFile(), abspath(image));
      var c, k := ReplaceCalls(t, image), |RemoveMsCalls(t)|;
      var head := RemoveMsCalls(t) + [MakeDirsCall(Lun()), WriteCall(LunFile(), abspath(image))];
      assert c == head + FillLunCalls() + MsLinkCalls(FillLun(u));
      assert |head| == k + 2;
      forall i | k + 4 < i < |c|
        ensures !(c[i].WriteCall? && c[i].path == LunFile())
      {
        if i == k + 5 {
          assert c[i] == WriteCall(Removable(), "1");
        } else {
          assert c[i] == SymlinkCall(Ms(), MsLink());
        }
      }
    }

    /** Unlinking the function and making the LUN leave a writable LUN file and c.1 and the ACM link as they were. */
    lemma ReplacePrepares(t: Tree)
      requires IsDir(t, Cfg()) && CanMakeDirs(t, Lun())
      requires LunFile() !in rejects && (LunFile() in t ==> t[LunFile()].File?)
      ensures var t2 := TryMakeDirs(RemoveMsTree(t), Lun());
        && AllDirs(t2, Lun()) && Writable(t2, LunFile()) && IsDir(t2, Cfg()) && Agree(t, t2, AcmLink())
        && (MsLink() in t2 <==> IsDir(t, MsLink())) && (MsLink() in t2 ==> t2[MsLink()] == Dir)
    {
      PathsApart();
      var t1 := RemoveMsTree(t);
      if CanUnlink(t, MsLink()) {
        CanMakeDirsRemove(t, Lun(), MsLink());
      }
      MakeDirsAllDirs(t1, Lun());
      MakeDirsAgree(t1, Lun(), LunFile());
      MakeDirsAgree(t1, Lun(), Cfg());
      MakeDirsAgree(t1, Lun(), AcmLink());
      MakeDirsAgree(t1, Lun(), MsLink());
      RemoveMsOnly(t);
    }

    /** Re-adding the function after any write to the LUN file backs it by the configured image and links it. */
    lemma ReplaceRelinks(w: Tree, x: string)
      requires AllDirs(w, Lun()) && Writable(w, LunFile()) && IsDir(w, Cfg())
      ensures var r := AddMsTree(TryWrite(w, LunFile(), x));
        && LunFile() in r && r[LunFile()] == File(abspath(storage.image))
        && MsLink() in r && r[MsLink()] == (if MsLink() in w then w[MsLink()] else Link(Ms()))
        && Agree(w, r, AcmLink())
    {
      PathsApart();
      var t3 := w[LunFile() := File(x)];
      LunFileRewrite(w, x);
      FillLunAgree(t3, MsLink());
      FillLunAgree(t3, Cfg());
      FillLunAgree(t3, AcmLink());
    }
  }
}
