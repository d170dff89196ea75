/**
 * The storage manager of USBStorage.py: which external programs it runs to
 * create, mount, unmount and relabel the FAT disk image that backs the USB
 * mass-storage function.  Every subprocess.run is an abstract command record
 * appended to a trace; what the host offers (which programs shutil.which
 * finds, which device nodes os.path.exists sees and when, which commands exit
 * with an error, what losetup prints) is an input.
 */
module Storage {
  import opened Text

  /** config.DATA_IMAGE, config.DATA_DIR and config.IMAGE_SIZE_MB. */
  datatype Config = Config(image: string, dataDir: string, sizeMb: nat)

  /** One subprocess.run([tool] + args). */
  datatype Cmd = Cmd(tool: string, args: seq<string>)

  /**
   * The host as the storage code sees it.
   *  - tools: the programs that are installed (shutil.which finds them and
   *    subprocess.run can start them);
   *  - appearsAt: for a device node or file that shows up, the first poll tick
   *    at which os.path.exists reports it (tick 0 is before any sleep, each
   *    sleep of a polling loop advances one tick);
   *  - failing: the commands that exit with a non-zero status;
   *  - loopOut: what `losetup -f --show` prints, before stripping;
   *  - listing: what `losetup -j` prints, before stripping.
   */
  datatype Host = Host(
    tools: set<string>,
    appearsAt: map<string, nat>,
    failing: set<Cmd>,
    loopOut: string,
    listing: string)

  /** How a call of the storage code ended: normally, or with the exception of one command. */
  datatype Outcome = Completed | Raised(cmd: Cmd)

  datatype Mode = ReadWrite | ReadOnly

  /** os.path.exists(p) at a given poll tick; a node never disappears once it is there. */
  predicate ExistsAt(h: Host, p: string, tick: nat) {
    p in h.appearsAt && h.appearsAt[p] <= tick
  }

  /**
   * subprocess.run raises FileNotFoundError when the program is missing, and
   * CalledProcessError when check=True and the program fails.
   */
  predicate Raises(h: Host, c: Cmd, check: bool) {
    c.tool !in h.tools || (check && c in h.failing)
  }

  // ---- the commands ------------------------------------------------------------

  function Fallocate(c: Config): Cmd {
    Cmd("fallocate", ["-l", Decimal(c.sizeMb) + "M", c.image])
  }

  function ZeroFill(c: Config): Cmd {
    Cmd("dd", ["if=/dev/zero", "of=" + c.image, "bs=1M", "count=" + Decimal(c.sizeMb)])
  }

  /** Attach the image to a free loop device and print its name. */
  function Attach(image: string): Cmd {
    Cmd("losetup", ["-f", "--show", image])
  }

  /** As Attach, and let the kernel scan the partition table. */
  function AttachScan(image: string): Cmd {
    Cmd("losetup", ["-f", "--show", "-P", image])
  }

  function Detach(dev: string): Cmd {
    Cmd("losetup", ["-d", dev])
  }

  function FindLoops(image: string): Cmd {
    Cmd("losetup", ["-j", image])
  }

  function Mklabel(loop: string): Cmd {
    Cmd("parted", ["-s", loop, "mklabel", "msdos"])
  }

  function Mkpart(loop: string): Cmd {
    Cmd("parted", ["-s", loop, "mkpart", "primary", "fat32", "1MiB", "100%"])
  }

  function Partprobe(loop: string): Cmd {
    Cmd("partprobe", [loop])
  }

  function Mkfs(target: string): Cmd {
    Cmd("mkfs.vfat", [target])
  }

  function MountDevice(mode: Mode, dev: string, dir: string): Cmd {
    Cmd("mount", if mode == ReadWrite then [dev, dir] else ["-o", "ro", dev, dir])
  }

  function MountLoop(mode: Mode, image: string, dir: string): Cmd {
    Cmd("mount", ["-o", if mode == ReadWrite then "loop" else "ro,loop", image, dir])
  }

  function Unmount(dir: string): Cmd {
    Cmd("umount", [dir])
  }

  function Fatlabel(dev: string, volume: string): Cmd {
    Cmd("fatlabel", [dev, volume])
  }

  function Dosfslabel(dev: string, volume: string): Cmd {
    Cmd("dosfslabel", [dev, volume])
  }

  function Mlabel(dev: string, serial: string): Cmd {
    Cmd("mlabel", ["-i", dev, "-N", serial, "::"])
  }

  /** A command that attaches an image to a free loop device. */
  predicate IsAttach(c: Cmd) {
    c.tool == "losetup" && |c.args| > 0 && c.args[0] == "-f"
  }

  /**
   * Every attach in the trace that succeeded (and so left a loop device
   * behind) is followed, later in the trace, by the detach of that device.
   */
  predicate DetachesAfterAttach(h: Host, trace: seq<Cmd>) {
    forall i :: 0 <= i < |trace| && IsAttach(trace[i]) && !Raises(h, trace[i], true) ==>
      exists j :: i < j < |trace| && trace[j] == Detach(Strip(h.loopOut))
  }

  // ---- partition nodes ------------------------------------------------------------

  /** The first partition of a loop device is named loopXp1 or loopX1, whichever exists. */
  function PartitionNode(h: Host, loop: string): (p: string)
    ensures p == loop + "p1" || p == loop + "1"
    ensures p == loop + "p1" <==> ExistsAt(h, loop + "p1", 0)
  {
    if ExistsAt(h, loop + "p1", 0) then loop + "p1" else loop + "1"
  }

  /** The device the metadata bump works on: the partition if it is there, else the loop device. */
  function BumpTarget(h: Host, loop: string): (dev: string)
    ensures ExistsAt(h, PartitionNode(h, loop), 0) ==> dev == PartitionNode(h, loop)
    ensures !ExistsAt(h, PartitionNode(h, loop), 0) ==> dev == loop
  {
    var p := PartitionNode(h, loop);
    if ExistsAt(h, p, 0) then p else loop
  }

  /**
   * Wait for a node: at most 20 checks, with a sleep after each miss.  The
   * result is the tick at which the node was seen, or 20 when it never was.
   */
  method Poll(h: Host, node: string) returns (tick: nat)
    ensures tick <= 20
    ensures tick < 20 ==> ExistsAt(h, node, tick)
    ensures forall k :: 0 <= k < tick ==> !ExistsAt(h, node, k)
    ensures ExistsAt(h, node, tick) <==> ExistsAt(h, node, 20)
  {
    tick := 0;
    while tick < 20 && !ExistsAt(h, node, tick)
      invariant tick <= 20
      invariant forall k :: 0 <= k < tick ==> !ExistsAt(h, node, k)
    {
      tick := tick + 1;
    }
    if tick > 0 {
      assert !ExistsAt(h, node, tick - 1);
    }
  }

  // ---- running a sequence of commands -------------------------------------------

  /** A step of a command sequence: a command and whether it is run with check=True. */
  datatype Step = Step(cmd: Cmd, check: bool)

  function Cmds(plan: seq<Step>): (cs: seq<Cmd>)
    ensures |cs| == |plan| && forall k :: 0 <= k < |plan| ==> cs[k] == plan[k].cmd
  {
    if plan == [] then [] else [plan[0].cmd] + Cmds(plan[1..])
  }

  /**
   * The commands a straight-line sequence of subprocess.run calls starts: all
   * of them up to and including the first that raises.
   */
  function Run(h: Host, plan: seq<Step>): (cs: seq<Cmd>)
    ensures |cs| <= |plan| && cs == Cmds(plan[..|cs|])
    ensures forall k :: 0 <= k < |cs| - 1 ==> !Raises(h, plan[k].cmd, plan[k].check)
    ensures |cs| < |plan| ==> 0 < |cs| && Raises(h, plan[|cs| - 1].cmd, plan[|cs| - 1].check)
  {
    if plan == [] then []
    else if Raises(h, plan[0].cmd, plan[0].check) then [plan[0].cmd]
    else [plan[0].cmd] + Run(h, plan[1..])
  }

  /** How such a sequence ends: with the exception of the first command that raises. */
  function RunOutcome(h: Host, plan: seq<Step>): (o: Outcome)
    ensures o == Completed <==> forall k :: 0 <= k < |plan| ==> !Raises(h, plan[k].cmd, plan[k].check)
    ensures o.Raised? ==> o.cmd == Run(h, plan)[|Run(h, plan)| - 1]
  {
    if plan == [] then Completed
    else if Raises(h, plan[0].cmd, plan[0].check) then Raised(plan[0].cmd)
    else RunOutcome(h, plan[1..])
  }

  /** A sequence that ends normally runs every command. */
  lemma {:induction false} RunCompleted(h: Host, plan: seq<Step>)
    requires RunOutcome(h, plan) == Completed
    ensures Run(h, plan) == Cmds(plan)
  {
    if plan != [] {
      RunCompleted(h, plan[1..]);
    }
  }

  // ---- image_create --------------------------------------------------------------

  /** The allocator of a fresh image: fallocate when installed, dd otherwise. */
  function Allocator(c: Config, h: Host): Cmd {
    if "fallocate" in h.tools then Fallocate(c) else ZeroFill(c)
  }

  /** The image gets a partition table only when losetup, parted and mkfs.vfat are all installed. */
  predicate Partitioned(h: Host) {
    "losetup" in h.tools && "parted" in h.tools && "mkfs.vfat" in h.tools
  }

  /** Allocate the image and attach it to a loop device (partitioned layout). */
  function AttachPlan(c: Config, h: Host): seq<Step> {
    [Step(Allocator(c, h), true), Step(Attach(c.image), true)]
  }

  /**
   * The try block of the partitioned layout: label the disk, make one FAT32
   * partition, rescan, and format the partition node.
   */
  function PartitionPlan(h: Host, loop: string): seq<Step> {
    [ Step(Mklabel(loop), true), Step(Mkpart(loop), true), Step(Partprobe(loop), false),
      Step(Mkfs(PartitionNode(h, loop)), true) ]
  }

  /** Allocate the image and format it whole (no partition table). */
  function WholePlan(c: Config, h: Host): seq<Step> {
    [Step(Allocator(c, h), true), Step(Mkfs(c.image), true)]
  }

  /**
   * What image_create runs.  Nothing for an existing image.  In the
   * partitioned layout, once the loop device is attached, the try block runs
   * up to its first exception and the detach of the finally clause follows.
   */
  function CreateTrace(c: Config, h: Host): seq<Cmd> {
    if ExistsAt(h, c.image, 0) then []
    else if Partitioned(h) then
      var loop := Strip(h.loopOut);
      Run(h, AttachPlan(c, h))
        + (if RunOutcome(h, AttachPlan(c, h)).Raised? then []
           else Run(h, PartitionPlan(h, loop)) + [Detach(loop)])
    else Run(h, WholePlan(c, h))
  }

  /** How image_create ends; the detach is run with check=False and losetup is there, so it never raises. */
  function CreateOutcome(c: Config, h: Host): Outcome {
    if ExistsAt(h, c.image, 0) then Completed
    else if Partitioned(h) then
      if RunOutcome(h, AttachPlan(c, h)).Raised? then RunOutcome(h, AttachPlan(c, h))
      else RunOutcome(h, PartitionPlan(h, Strip(h.loopOut)))
    else RunOutcome(h, WholePlan(c, h))
  }

  /** The try block of the partitioned layout, which also waits for the partition node. */
  method FormatPartition(h: Host, loop: string) returns (steps: seq<Cmd>, outcome: Outcome)
    ensures steps == Run(h, PartitionPlan(h, loop)) && outcome == RunOutcome(h, PartitionPlan(h, loop))
  {
    ghost var plan := PartitionPlan(h, loop);
    ghost var rest1, rest2, rest3 := plan[1..], plan[2..], plan[3..];
    assert rest1[1..] == rest2 && rest2[1..] == rest3 && rest3[1..] == [];
    steps := [Mklabel(loop)];
    if Raises(h, Mklabel(loop), true) {
      return steps, Raised(Mklabel(loop));
    }
    steps := steps + [Mkpart(loop)];
    if Raises(h, Mkpart(loop), true) {
      return steps, Raised(Mkpart(loop));
    }
    steps := steps + [Partprobe(loop)];
    if Raises(h, Partprobe(loop), false) {
      assert Run(h, rest2) == [Partprobe(loop)];
      return steps, Raised(Partprobe(loop));
    }
    var part1 := PartitionNode(h, loop);
    // mkfs.vfat runs whether or not the poll saw the node
    var _ := Poll(h, part1);
    steps := steps + [Mkfs(part1)];
    if Raises(h, Mkfs(part1), true) {
      return steps, Raised(Mkfs(part1));
    }
    outcome := Completed;
  }

  /** The partitioned layout of image_create once the allocator has run: attach, try block, finally. */
  method CreatePartitioned(c: Config, h: Host) returns (rest: seq<Cmd>, outcome: Outcome)
    requires !ExistsAt(h, c.image, 0) && Partitioned(h) && !Raises(h, Allocator(c, h), true)
    ensures [Allocator(c, h)] + rest == CreateTrace(c, h) && outcome == CreateOutcome(c, h)
  {
    AttachTrace(c, h);
    rest := [Attach(c.image)];
    if Raises(h, Attach(c.image), true) {
      return rest, Raised(Attach(c.image));
    }
    var loop := Strip(h.loopOut);
    var steps;
    steps, outcome := FormatPartition(h, loop);
    // the finally clause
    rest := rest + steps + [Detach(loop)];
    Regroup(Allocator(c, h), Attach(c.image), steps, Detach(loop));
  }

  lemma Regroup(a: Cmd, b: Cmd, s: seq<Cmd>, d: Cmd)
    ensures [a] + ([b] + s + [d]) == [a, b] + s + [d]
  {
  }

  /** The partitioned layout once the allocator has run: the attach, and the rest only when it succeeds. */
  lemma AttachTrace(c: Config, h: Host)
    requires !ExistsAt(h, c.image, 0) && Partitioned(h) && !Raises(h, Allocator(c, h), true)
    ensures var loop := Strip(h.loopOut);
      if Raises(h, Attach(c.image), true) then
        CreateTrace(c, h) == [Allocator(c, h), Attach(c.image)] && CreateOutcome(c, h) == Raised(Attach(c.image))
      else
        && CreateTrace(c, h) == [Allocator(c, h), Attach(c.image)] + Run(h, PartitionPlan(h, loop)) + [Detach(loop)]
        && CreateOutcome(c, h) == RunOutcome(h, PartitionPlan(h, loop))
  {
    var pre := AttachPlan(c, h);
    assert pre[1..][1..] == [];
    PartitionedTrace(c, h);
  }

  /** image_create, command by command. */
  method ImageCreate(c: Config, h: Host) returns (trace: seq<Cmd>, outcome: Outcome)
    ensures trace == CreateTrace(c, h) && outcome == CreateOutcome(c, h)
  {
    if ExistsAt(h, c.image, 0) {
      return [], Completed;
    }
    var alloc := if "fallocate" in h.tools then Fallocate(c) else ZeroFill(c);
    trace := [alloc];
    if Raises(h, alloc, true) {
      return trace, Raised(alloc);
    }
    if "losetup" in h.tools && "parted" in h.tools && "mkfs.vfat" in h.tools {
      var rest;
      rest, outcome := CreatePartitioned(c, h);
      trace := trace + rest;
    } else {
      ghost var whole := WholePlan(c, h);
      assert whole[1..][1..] == [];
      trace := trace + [Mkfs(c.image)];
      if Raises(h, Mkfs(c.image), true) {
        return trace, Raised(Mkfs(c.image));
      }
      outcome := Completed;
    }
  }

  // ---- properties of image_create --------------------------------------------------

  /** The image is never allocated twice: the allocator comes first and no other allocator follows. */
  lemma CreateAllocatesOnce(c: Config, h: Host)
    requires !ExistsAt(h, c.image, 0)
    ensures var t := CreateTrace(c, h);
      && |t| > 0 && t[0] == Allocator(c, h)
      && (t[0].tool == "fallocate" <==> "fallocate" in h.tools)
      && forall k :: 1 <= k < |t| ==> t[k].tool != "fallocate" && t[k].tool != "dd"
  {
    if Partitioned(h) {
      PartitionedAllocatesOnce(c, h);
    } else {
      var whole := WholePlan(c, h);
      var t := Run(h, whole);
      assert t[0] == whole[0].cmd;
      assert forall k :: 1 <= k < |t| ==> t[k] == whole[k].cmd == Mkfs(c.image);
    }
  }

  /** The partitioned layout runs its allocator first and never again. */
  lemma PartitionedAllocatesOnce(c: Config, h: Host)
    requires !ExistsAt(h, c.image, 0) && Partitioned(h)
    ensures var t := CreateTrace(c, h);
      && |t| > 0 && t[0] == Allocator(c, h)
      && forall k :: 1 <= k < |t| ==> t[k].tool != "fallocate" && t[k].tool != "dd"
  {
    var loop := Strip(h.loopOut);
    var a := Run(h, AttachPlan(c, h));
    AttachAllocatesFirst(c, h);
    TryBlockAllocatesNot(h, loop);
    var rest := if RunOutcome(h, AttachPlan(c, h)).Raised? then [] else Run(h, PartitionPlan(h, loop)) + [Detach(loop)];
    NotAllocators();
    assert NoAllocator(rest);
    PartitionedTrace(c, h);
    NoAllocatorAfterFirst(a, rest);
  }

  /** The attach plan starts with the allocator and has no other. */
  lemma AttachAllocatesFirst(c: Config, h: Host)
    requires Partitioned(h)
    ensures var a := Run(h, AttachPlan(c, h)); |a| > 0 && a[0] == Allocator(c, h) && NoAllocator(a[1..])
  {
    var a := Run(h, AttachPlan(c, h));
    PlanCommands(c, h, "");
    NotAllocators();
    assert forall k :: 1 <= k < |a| ==> a[k] == Attach(c.image);
  }

  /** The try block of the partitioned layout allocates nothing. */
  lemma TryBlockAllocatesNot(h: Host, loop: string)
    ensures NoAllocator(Run(h, PartitionPlan(h, loop)))
  {
    var body := PartitionPlan(h, loop);
    var r := Run(h, body);
    NotAllocators();
    forall k | 0 <= k < |r| ensures !Allocates(r[k].tool) {
      assert r[k] == body[k].cmd;
    }
  }

  /** Two sequences without an allocator after the first command make one. */
  lemma NoAllocatorAfterFirst(a: seq<Cmd>, rest: seq<Cmd>)
    requires |a| > 0 && NoAllocator(a[1..]) && NoAllocator(rest)
    ensures var t := a + rest; forall k :: 1 <= k < |t| ==> !Allocates(t[k].tool)
  {
    var t := a + rest;
    forall k | 1 <= k < |t| ensures !Allocates(t[k].tool) {
      if k < |a| {
        assert t[k] == a[1..][k - 1];
      } else {
        assert t[k] == rest[k - |a|];
      }
    }
  }

  /** The partitioned trace: the attach plan, then, once attached, the try block and the detach. */
  lemma PartitionedTrace(c: Config, h: Host)
    requires !ExistsAt(h, c.image, 0) && Partitioned(h)
    ensures var loop := Strip(h.loopOut);
      CreateTrace(c, h) == Run(h, AttachPlan(c, h))
        + (if RunOutcome(h, AttachPlan(c, h)).Raised? then [] else Run(h, PartitionPlan(h, loop)) + [Detach(loop)])
  {
  }

  /** The programs of the partitioned layout are not allocators. */
  lemma NotAllocators()
    ensures !Allocates("losetup") && !Allocates("parted") && !Allocates("partprobe") && !Allocates("mkfs.vfat")
  {
    assert "partprobe"[0] != "fallocate"[0] && "mkfs.vfat"[0] != "fallocate"[0];
  }

  /** The programs image_create allocates an image with. */
  predicate Allocates(tool: string) {
    tool == "fallocate" || tool == "dd"
  }

  /** No command of the sequence allocates an image. */
  predicate NoAllocator(cs: seq<Cmd>) {
    forall k :: 0 <= k < |cs| ==> !Allocates(cs[k].tool)
  }

  /** Without all of losetup, parted and mkfs.vfat no loop device and no partition table is involved. */
  lemma CreateWholeImage(c: Config, h: Host)
    requires !ExistsAt(h, c.image, 0) && !Partitioned(h)
    ensures var t := CreateTrace(c, h);
      && (forall k :: 0 <= k < |t| ==> t[k].tool != "losetup" && t[k].tool != "parted")
      && (CreateOutcome(c, h) == Completed ==> t == [Allocator(c, h), Mkfs(c.image)])
  {
    var whole := WholePlan(c, h);
    if CreateOutcome(c, h) == Completed {
      RunCompleted(h, whole);
    }
  }

  /** With all three tools and no failure, the full partitioned sequence runs and ends with the detach. */
  lemma CreatePartitionedImage(c: Config, h: Host)
    requires !ExistsAt(h, c.image, 0) && Partitioned(h) && CreateOutcome(c, h) == Completed
    ensures var loop := Strip(h.loopOut);
      CreateTrace(c, h) ==
        [ Allocator(c, h), Attach(c.image), Mklabel(loop), Mkpart(loop), Partprobe(loop),
          Mkfs(PartitionNode(h, loop)), Detach(loop) ]
  {
    var loop := Strip(h.loopOut);
    var pre, body := AttachPlan(c, h), PartitionPlan(h, loop);
    assert RunOutcome(h, pre) == Completed;
    RunCompleted(h, pre);
    RunCompleted(h, body);
    PlanCommands(c, h, loop);
  }

  /** The commands of the two plans of the partitioned layout, spelt out. */
  lemma PlanCommands(c: Config, h: Host, loop: string)
    ensures Cmds(AttachPlan(c, h)) == [Allocator(c, h), Attach(c.image)]
    ensures Cmds(PartitionPlan(h, loop)) ==
      [Mklabel(loop), Mkpart(loop), Partprobe(loop), Mkfs(PartitionNode(h, loop))]
  {
  }

  /** The loop device image_create attaches is detached on every path, whichever command raised. */
  lemma CreateDetaches(c: Config, h: Host)
    ensures DetachesAfterAttach(h, CreateTrace(c, h))
  {
    if !ExistsAt(h, c.image, 0) {
      if !Partitioned(h) {
        WholeNoAttach(c, h);
      } else if RunOutcome(h, AttachPlan(c, h)).Raised? {
        AttachRaised(c, h);
      } else {
        AttachDone(c, h);
      }
    }
  }

  /** Formatting the image whole never attaches it. */
  lemma WholeNoAttach(c: Config, h: Host)
    ensures DetachesAfterAttach(h, Run(h, WholePlan(c, h)))
  {
    var whole := WholePlan(c, h);
    var r := Run(h, whole);
    forall k | 0 <= k < |r| ensures !IsAttach(r[k]) {
      assert r[k] == whole[k].cmd;
    }
  }

  /** When allocation or the attach raised, no attach succeeded. */
  lemma AttachRaised(c: Config, h: Host)
    requires RunOutcome(h, AttachPlan(c, h)).Raised?
    ensures DetachesAfterAttach(h, Run(h, AttachPlan(c, h)))
  {
    var pre := AttachPlan(c, h);
    var a := Run(h, pre);
    if Raises(h, Allocator(c, h), true) {
      assert a == [Allocator(c, h)];
    } else {
      assert pre[1..][1..] == [];
      assert a == [Allocator(c, h), Attach(c.image)];
      assert Raises(h, Attach(c.image), true);
    }
  }

  /** Once the loop device is attached, the detach of the finally clause ends the trace. */
  lemma AttachDone(c: Config, h: Host)
    requires !ExistsAt(h, c.image, 0) && Partitioned(h) && !RunOutcome(h, AttachPlan(c, h)).Raised?
    ensures DetachesAfterAttach(h, CreateTrace(c, h))
  {
    var loop := Strip(h.loopOut);
    var t := CreateTrace(c, h);
    assert t == Run(h, AttachPlan(c, h)) + Run(h, PartitionPlan(h, loop)) + [Detach(loop)];
    EndsWithDetach(h, t);
  }

  /** A trace that ends with the detach of the attached device detaches after every attach. */
  lemma EndsWithDetach(h: Host, t: seq<Cmd>)
    requires t != [] && t[|t| - 1] == Detach(Strip(h.loopOut))
    ensures DetachesAfterAttach(h, t)
  {
    var d := Detach(Strip(h.loopOut));
    assert !IsAttach(d) by {
      assert d.args[0] == "-d";
      assert "-d"[1] != "-f"[1];
    }
    forall i | 0 <= i < |t| && IsAttach(t[i]) && !Raises(h, t[i], true)
      ensures exists j :: i < j < |t| && t[j] == d
    {
      assert t[|t| - 1] == d;
    }
  }

  // ---- mount and mount_ro --------------------------------------------------------------

  /**
   * The first partition is mounted when losetup is installed, attaching the
   * image succeeded and printed a device name, and its first partition node
   * showed up within the 20 polls.
   */
  predicate MountsPartition(c: Config, h: Host) {
    var loop := Strip(h.loopOut);
    && "losetup" in h.tools && !Raises(h, AttachScan(c.image), true) && loop != []
    && ExistsAt(h, PartitionNode(h, loop), 20)
  }

  /** The mount command: the partition node, or else the image through a loop device. */
  function MountCommand(c: Config, h: Host, mode: Mode): Cmd {
    if MountsPartition(c, h) then MountDevice(mode, PartitionNode(h, Strip(h.loopOut)), c.dataDir)
    else MountLoop(mode, c.image, c.dataDir)
  }

  /**
   * mount (ReadWrite) and mount_ro (ReadOnly).  The attach runs with check=True
   * inside a try block that turns its failure into "no loop device"; the mount
   * itself runs with check=False, so only a missing mount program raises.
   */
  method Mount(c: Config, h: Host, mode: Mode) returns (trace: seq<Cmd>, outcome: Outcome)
    ensures trace == (if "losetup" in h.tools then [AttachScan(c.image)] else []) + [MountCommand(c, h, mode)]
    ensures outcome == if "mount" in h.tools then Completed else Raised(MountCommand(c, h, mode))
  {
    trace := [];
    if "losetup" in h.tools {
      trace := [AttachScan(c.image)];
      var loop := if Raises(h, AttachScan(c.image), true) then [] else Strip(h.loopOut);
      if loop != [] {
        var part1 := PartitionNode(h, loop);
        var tick := Poll(h, part1);
        var m := if ExistsAt(h, part1, tick) then MountDevice(mode, part1, c.dataDir)
                 else MountLoop(mode, c.image, c.dataDir);
        trace := trace + [m];
        outcome := if Raises(h, m, false) then Raised(m) else Completed;
        return;
      }
    }
    var m := MountLoop(mode, c.image, c.dataDir);
    trace := trace + [m];
    outcome := if Raises(h, m, false) then Raised(m) else Completed;
  }

  /** A mount command that asks for a read-only mount. */
  predicate ReadOnlyMount(m: Cmd) {
    m.tool == "mount" && |m.args| >= 2 && m.args[0] == "-o" && (m.args[1] == "ro" || m.args[1] == "ro,loop")
  }

  /** mount_ro always mounts read-only and mount never does, whichever device is mounted. */
  lemma MountModeRespected(c: Config, h: Host, mode: Mode)
    ensures ReadOnlyMount(MountCommand(c, h, mode)) <==> mode == ReadOnly
    ensures MountCommand(c, h, mode).args[|MountCommand(c, h, mode).args| - 1] == c.dataDir
  {
    if MountsPartition(c, h) {
      var dev := PartitionNode(h, Strip(h.loopOut));
      assert dev[|dev| - 1] == '1';
      DeviceModeRespected(mode, dev, c.dataDir);
    } else {
      LoopModeRespected(mode, c.image, c.dataDir);
    }
  }

  /** Mounting a device node other than "-o" is read-only exactly in ReadOnly mode. */
  lemma DeviceModeRespected(mode: Mode, dev: string, dir: string)
    requires dev != "-o"
    ensures var m := MountDevice(mode, dev, dir);
      (ReadOnlyMount(m) <==> mode == ReadOnly) && m.args[|m.args| - 1] == dir
  {
  }

  /** Mounting through a loop device is read-only exactly in ReadOnly mode. */
  lemma LoopModeRespected(mode: Mode, image: string, dir: string)
    ensures var m := MountLoop(mode, image, dir);
      (ReadOnlyMount(m) <==> mode == ReadOnly) && m.args[|m.args| - 1] == dir
  {
    assert "loop"[0] != "ro"[0];
  }

  // ---- umount ---------------------------------------------------------------------

  /** line.split(":", 1)[0].strip(): the device name at the head of a `losetup -j` line. */
  function ParseDevice(line: string): (dev: string)
    ensures ':' !in dev
    ensures dev == [] || (!IsSpace(dev[0]) && !IsSpace(dev[|dev| - 1]))
  {
    var head := BeforeColon(line);
    var dev := Strip(head);
    SliceExcludes(head, Leading(head), Leading(head) + |dev|, ':');
    dev
  }

  /** The non-empty device names of the lines, in order. */
  function Devices(lines: seq<string>): (devs: seq<string>)
    ensures |devs| <= |lines|
    ensures forall k :: 0 <= k < |devs| ==> devs[k] != []
  {
    if lines == [] then []
    else
      var dev := ParseDevice(lines[|lines| - 1]);
      Devices(lines[..|lines| - 1]) + (if dev == [] then [] else [dev])
  }

  function Detaches(devs: seq<string>): (cs: seq<Cmd>)
    ensures |cs| == |devs| && forall k :: 0 <= k < |devs| ==> cs[k] == Detach(devs[k])
  {
    seq(|devs|, k requires 0 <= k < |devs| => Detach(devs[k]))
  }

  /** The loop over the stripped `losetup -j` lines: detach each non-empty device name. */
  method DetachListed(lines: seq<string>) returns (cmds: seq<Cmd>)
    ensures cmds == Detaches(Devices(lines))
  {
    cmds := [];
    var i := 0;
    while i < |lines|
      invariant 0 <= i <= |lines|
      invariant cmds == Detaches(Devices(lines[..i]))
    {
      var dev := ParseDevice(lines[i]);
      ghost var next := Detaches(Devices(lines[..i + 1]));
      DetachesStep(lines, i);
      if dev != [] {
        cmds := cmds + [Detach(dev)];
      }
      assert cmds == next;
      i := i + 1;
    }
    WholePrefix(lines);
  }

  lemma WholePrefix(lines: seq<string>)
    ensures lines[..|lines|] == lines
  {
  }

  /**
   * umount: unmount the data directory, then, when losetup is installed, list
   * the loop devices backing the image and detach each of them.  Everything
   * after the umount is best effort and cannot raise.
   */
  method Umount(c: Config, h: Host) returns (trace: seq<Cmd>, outcome: Outcome)
    ensures "umount" !in h.tools ==> trace == [Unmount(c.dataDir)] && outcome == Raised(Unmount(c.dataDir))
    ensures "umount" in h.tools ==>
      && outcome == Completed
      && trace == [Unmount(c.dataDir)]
           + (if "losetup" in h.tools then [FindLoops(c.image)] + Detaches(Devices(SplitLines(Strip(h.listing)))) else [])
  {
    trace := [Unmount(c.dataDir)];
    if "umount" !in h.tools {
      return trace, Raised(Unmount(c.dataDir));
    }
    outcome := Completed;
    if "losetup" in h.tools {
      var cmds := DetachListed(SplitLines(Strip(h.listing)));
      trace := trace + [FindLoops(c.image)] + cmds;
    }
  }

  lemma DevicesStep(lines: seq<string>, i: nat)
    requires i < |lines|
    ensures var dev := ParseDevice(lines[i]);
      Devices(lines[..i + 1]) == Devices(lines[..i]) + (if dev != [] then [dev] else [])
  {
    assert lines[..i + 1][..i] == lines[..i];
  }

  /** One more line adds the detach of its device, if it names one. */
  lemma DetachesStep(lines: seq<string>, i: nat)
    requires i < |lines|
    ensures var dev := ParseDevice(lines[i]);
      Detaches(Devices(lines[..i + 1])) == Detaches(Devices(lines[..i])) + (if dev != [] then [Detach(dev)] else [])
  {
    var dev := ParseDevice(lines[i]);
    DevicesStep(lines, i);
    var found := if dev != [] then [dev] else [];
    DetachesAppend(Devices(lines[..i]), found);
    assert Detaches(found) == if dev != [] then [Detach(dev)] else [];
  }

  lemma DetachesAppend(a: seq<string>, b: seq<string>)
    ensures Detaches(a + b) == Detaches(a) + Detaches(b)
  {
    var x, y := Detaches(a + b), Detaches(a) + Detaches(b);
    forall k | 0 <= k < |x| ensures x[k] == y[k] {
      if k < |a| {
        assert (a + b)[k] == a[k];
      } else {
        assert (a + b)[k] == b[k - |a|];
      }
    }
  }

  /** A device name as losetup prints it: non-empty, without ':' or a line break, no surrounding whitespace. */
  predicate DeviceName(d: string) {
    d != [] && ':' !in d && NoLineBreak(d) && !IsSpace(d[0]) && !IsSpace(d[|d| - 1])
  }

  /** The device name of a listing line is what precedes its first ':'. */
  lemma ParseListingLine(dev: string, info: string)
    requires DeviceName(dev)
    ensures ParseDevice(dev + ":" + info) == dev
  {
    var line := dev + ":" + info;
    var head := BeforeColon(line);
    assert line[|dev|] == ':';
    assert head == dev;
    StripKeeps(dev);
  }

  /** One listing line per attached device in the format `losetup -j` prints. */
  function Listing(devs: seq<string>, infos: seq<string>): (lines: seq<string>)
    requires |devs| == |infos|
    ensures |lines| == |devs| && forall k :: 0 <= k < |devs| ==> lines[k] == devs[k] + ":" + infos[k]
  {
    if devs == [] then [] else [devs[0] + ":" + infos[0]] + Listing(devs[1..], infos[1..])
  }

  lemma {:induction false} DevicesOfListing(devs: seq<string>, infos: seq<string>)
    requires |devs| == |infos|
    requires forall k :: 0 <= k < |devs| ==> DeviceName(devs[k])
    ensures Devices(Listing(devs, infos)) == devs
    decreases |devs|
  {
    if devs != [] {
      var n := |devs| - 1;
      var lines := Listing(devs, infos);
      var front, last := devs[..n], devs[n];
      ListingPrefix(devs, infos, n);
      assert lines[n] == last + ":" + infos[n];
      ParseListingLine(last, infos[n]);
      DevicesSplit(lines);
      assert Devices(lines) == Devices(lines[..n]) + [last];
      DevicesOfListing(front, infos[..n]);
      DropLast(devs);
    }
  }

  lemma DropLast(s: seq<string>)
    requires s != []
    ensures s[..|s| - 1] + [s[|s| - 1]] == s
  {
  }

  /** The listing of a prefix is the prefix of the listing. */
  lemma ListingPrefix(devs: seq<string>, infos: seq<string>, n: nat)
    requires |devs| == |infos| && n <= |devs|
    ensures Listing(devs, infos)[..n] == Listing(devs[..n], infos[..n])
  {
  }

  /** Devices of a non-empty listing: those of all lines but the last, then the last line's. */
  lemma DevicesSplit(lines: seq<string>)
    requires lines != []
    ensures var n := |lines| - 1; var dev := ParseDevice(lines[n]);
      Devices(lines) == Devices(lines[..n]) + (if dev == [] then [] else [dev])
  {
  }

  /**
   * umount finds every device of a listing: when `losetup -j` prints one line
   * per device (whatever follows the ':'), each ended by a line break, the
   * devices detached are exactly those, in the order listed.
   */
  lemma ListingRoundTrip(devs: seq<string>, infos: seq<string>)
    requires |devs| == |infos| && |devs| > 0
    requires forall k :: 0 <= k < |devs| ==> DeviceName(devs[k]) && NoLineBreak(infos[k])
    requires var last := infos[|infos| - 1]; last == [] || !IsSpace(last[|last| - 1])
    ensures Devices(SplitLines(Strip(JoinLines(Listing(devs, infos)) + "\n"))) == devs
  {
    var lines := Listing(devs, infos);
    var n := |lines| - 1;
    forall k | 0 <= k < |lines| ensures NoLineBreak(lines[k]) {
      var l := lines[k];
      assert l == devs[k] + ":" + infos[k];
      forall j | 0 <= j < |l| ensures !IsLineBreak(l[j]) {
        if j < |devs[k]| {
          assert l[j] == devs[k][j];
        } else if j > |devs[k]| {
          assert l[j] == infos[k][j - |devs[k]| - 1];
        }
      }
    }
    assert lines[0][0] == devs[0][0];
    var l := lines[n];
    assert |l| > 0 && l[|l| - 1] == if infos[n] == [] then ':' else infos[n][|infos[n]| - 1];
    JoinLinesEnds(lines);
    var text := JoinLines(lines);
    StripNewline(text);
    SplitJoin(lines);
    DevicesOfListing(devs, infos);
  }

  // ---- bump_fat_volume_metadata --------------------------------------------------------

  /** The FAT volume label: "RECEIVE" and the low five decimal digits of the time in seconds. */
  function Label(seconds: int): string {
    "RECEIVE" + ZeroPad(Decimal(seconds % 100000), 5)
  }

  /** The FAT volume serial: the low 32 bits of the time in milliseconds as eight upper-case hex digits. */
  function Serial(millis: int): string {
    ZeroPad(Digits(millis % 0x1_0000_0000, 16), 8)
  }

  /** The label is always 12 characters: "RECEIVE" and five digits that read back as seconds mod 100000. */
  lemma LabelFormat(seconds: int)
    ensures var l := Label(seconds);
      && |l| == 12 && l[..7] == "RECEIVE"
      && (forall k :: 7 <= k < 12 ==> IsDigit(l[k], 10))
      && Value(l[7..], 10) == seconds % 100000
  {
    var n := seconds % 100000;
    assert Pow(10, 5) == 100000 by {
      assert Pow(10, 2) == 100;
      assert Pow(10, 4) == 10000;
    }
    PaddedDigits(n, 10, 5);
    var z := ZeroPad(Decimal(n), 5);
    var l := Label(seconds);
    assert l == "RECEIVE" + z;
    assert l[7..] == z;
    forall k | 7 <= k < 12 ensures IsDigit(l[k], 10) {
      assert l[k] == z[k - 7];
    }
  }

  /** The serial is always eight upper-case hex digits that read back as millis mod 2^32. */
  lemma SerialFormat(millis: int)
    ensures var s := Serial(millis);
      && |s| == 8
      && (forall k :: 0 <= k < 8 ==> IsDigit(s[k], 16))
      && Value(s, 16) == millis % 0x1_0000_0000
  {
    assert Pow(16, 8) == 0x1_0000_0000 by {
      assert Pow(16, 2) == 256;
      assert Pow(16, 4) == 65536;
    }
    PaddedDigits(millis % 0x1_0000_0000, 16, 8);
  }

  /**
   * The relabelling bump_fat_volume_metadata attempts on `dev`: fatlabel if
   * installed, else dosfslabel, else a new serial through mlabel.
   */
  function Relabel(h: Host, dev: string, seconds: int, millis: int): seq<Cmd> {
    if "fatlabel" in h.tools then [Fatlabel(dev, Label(seconds))]
    else if "dosfslabel" in h.tools then [Dosfslabel(dev, Label(seconds))]
    else if "mlabel" in h.tools then [Mlabel(dev, Serial(millis))]
    else []
  }

  /** What bump_fat_volume_metadata runs: attach, at most one relabelling, detach. */
  function BumpTrace(c: Config, h: Host, seconds: int, millis: int): seq<Cmd> {
    if "losetup" !in h.tools then []
    else if Raises(h, AttachScan(c.image), true) then [AttachScan(c.image)]
    else
      var loop := Strip(h.loopOut);
      [AttachScan(c.image)] + Relabel(h, BumpTarget(h, loop), seconds, millis) + [Detach(loop)]
  }

  /**
   * bump_fat_volume_metadata, with the time as whole seconds and whole
   * milliseconds.  Every failure is swallowed, so it never raises.
   */
  method BumpFatVolumeMetadata(c: Config, h: Host, seconds: int, millis: int) returns (trace: seq<Cmd>)
    ensures trace == BumpTrace(c, h, seconds, millis)
  {
    if "losetup" !in h.tools {
      return [];
    }
    trace := [AttachScan(c.image)];
    if Raises(h, AttachScan(c.image), true) {
      return;
    }
    var loop := Strip(h.loopOut);
    var part1 := PartitionNode(h, loop);
    var dev := if ExistsAt(h, part1, 0) then part1 else loop;
    var tried := false;
    if "fatlabel" in h.tools {
      trace := trace + [Fatlabel(dev, Label(seconds))];
      tried := true;
    }
    if !tried && "dosfslabel" in h.tools {
      trace := trace + [Dosfslabel(dev, Label(seconds))];
      tried := true;
    }
    if !tried && "mlabel" in h.tools {
      trace := trace + [Mlabel(dev, Serial(millis))];
    }
    // the finally clause
    trace := trace + [Detach(loop)];
  }

  /** The loop device the bump attaches is always detached. */
  lemma BumpDetaches(c: Config, h: Host, seconds: int, millis: int)
    ensures DetachesAfterAttach(h, BumpTrace(c, h, seconds, millis))
  {
    var t := BumpTrace(c, h, seconds, millis);
    if "losetup" in h.tools && !Raises(h, AttachScan(c.image), true) {
      var loop := Strip(h.loopOut);
      var r := Relabel(h, BumpTarget(h, loop), seconds, millis);
      assert t == [AttachScan(c.image)] + r + [Detach(loop)];
      EndsWithDetach(h, t);
    }
  }

  /**
   * At most one relabelling tool runs, on the partition node when it exists
   * and the whole loop device otherwise; fatlabel wins over dosfslabel and
   * both over mlabel.
   */
  lemma BumpRelabelsOnce(c: Config, h: Host, seconds: int, millis: int)
    requires "losetup" in h.tools && !Raises(h, AttachScan(c.image), true)
    ensures var t := BumpTrace(c, h, seconds, millis);
      var dev := BumpTarget(h, Strip(h.loopOut));
      && 2 <= |t| <= 3
      && (|t| == 3 <==> "fatlabel" in h.tools || "dosfslabel" in h.tools || "mlabel" in h.tools)
      && ("fatlabel" in h.tools ==> t[1] == Fatlabel(dev, Label(seconds)))
      && ("fatlabel" !in h.tools && "dosfslabel" in h.tools ==> t[1] == Dosfslabel(dev, Label(seconds)))
      && ("fatlabel" !in h.tools && "dosfslabel" !in h.tools && "mlabel" in h.tools ==> t[1] == Mlabel(dev, Serial(millis)))
  {
    var loop := Strip(h.loopOut);
    var dev := BumpTarget(h, loop);
    var r := Relabel(h, dev, seconds, millis);
    var t := BumpTrace(c, h, seconds, millis);
    assert t == [AttachScan(c.image)] + r + [Detach(loop)];
    if "fatlabel" in h.tools || "dosfslabel" in h.tools || "mlabel" in h.tools {
      assert |r| == 1 && t[1] == r[0];
    } else {
      assert r == [];
    }
  }
}
