# receiveit-server: USB gadget and storage core in Dafny

ReceiveIt turns a small Linux board into a USB device. The board presents
itself to a host as a composite gadget with two functions: an ACM serial port
and a mass-storage disk backed by a FAT image file. This project models the
two classes that do that work and proves properties of the model.

- `USBGadget` builds the gadget in the kernel configuration file system
  (configfs), binds it to a USB device controller (UDC), tears it down again,
  and swaps the mass-storage function in and out of the active configuration.
- `USBStorage` creates the disk image (allocation, an optional msdos
  partition table, FAT formatting), mounts it read-write or read-only,
  unmounts it and detaches its loop devices, and relabels the FAT volume so
  the host drops its cache.

The model has four modules, one file each.

- `Text` (text.dfy) covers the Python string operations the storage code
  relies on:
  - `strip` and `isspace`;
  - `splitlines`;
  - `split(":", 1)[0]`;
  - decimal, zero-padded and upper-case hexadecimal formatting.

  `splitlines`, the split and the number formatting come with round-trip
  lemmas. `strip` comes with lemmas on what it keeps: a string without
  surrounding whitespace, and such a string followed by a line break.
- `Configfs` (configfs.dfy) is the file system as a finite map from paths to
  directories, files and symbolic links, with a well-formedness invariant. It
  gives pure definitions of `os.makedirs(exist_ok=True)`, `open(p, "w")`,
  `os.symlink`, `os.unlink`, `shutil.rmtree`, `os.rmdir`, `os.listdir`,
  `os.path.isdir`, `os.path.islink` and `os.path.exists`.
- `Storage` (storage.dfy) turns every `subprocess.run` into a command record
  appended to a trace. The host is an input value (`Host`) that fixes:
  - which programs `shutil.which` finds;
  - when each device node appears;
  - which commands exit non-zero;
  - what `losetup` prints.

  Each operation is a method whose result is tied to a trace function, and
  the lemmas are about those functions.
- `Gadget` (gadget.dfy) is the class `UsbGadget`. It has two fields:
  - a file-system `tree`;
  - a `log` of every file-system call issued.

  Each `USBGadget` operation is a method that changes them one system call at
  a time. It is proved equal to a tree function, and its log to a function
  that lists the calls it issues, in order. The lemmas state:
  - what init builds and what deinit removes;
  - that the two are inverse on a slot without a gadget;
  - that the mass-storage operations are idempotent and leave the rest of
    the gadget alone;
  - which calls the deinit loops issue, for every order `os.listdir` may
    return.

The docstring of `replace_mass_storage_image` (USBGadget.py:228-230) says
it changes `lun.0/file` to the new image. The code does write the new image
path there (USBGadget.py:243). It then calls `add_mass_storage`, which
writes `config.DATA_IMAGE` over it (USBGadget.py:211). The model follows the
code. Two lemmas state the consequence:
- `Gadget.UsbGadget.ReplaceIgnoresImage`: the argument makes no difference to
  the resulting tree;
- `Gadget.UsbGadget.ReplaceWritesOver`: the write of the argument is followed
  by the write of the configured image.

## Model

| member | source | states |
|---|---|---|
| Text.Strip | USBStorage.py:174 | the result is the slice of the input between its leading and its trailing whitespace, everything cut off is whitespace, and the result neither starts nor ends with whitespace |
| Text.StripKeeps | USBStorage.py:177 | a string that neither starts nor ends with whitespace is its own `strip()` |
| Text.StripNewline | USBStorage.py:174 | `strip()` of a non-empty string without surrounding whitespace, followed by a line break, gives back the string |
| Text.LineEnd | USBStorage.py:175 | the index of the first line break, with no line break before it |
| Text.SplitLines | USBStorage.py:175 | no line `splitlines()` returns contains a line break, and there are no more lines than characters |
| Text.SplitJoin | USBStorage.py:175 | splitting the newline-joined text of lines that contain no line break (the last one non-empty) gives back exactly those lines |
| Text.JoinLinesEnds | USBStorage.py:174-175 | joined lines start with the first line's first character and end with the last line's last character |
| Text.BeforeColon | USBStorage.py:177 | `split(":", 1)[0]` is the longest prefix without a ':', and the next character, if any, is the ':' |
| Text.Digits | USBStorage.py:247 | the digit string of a number has at least one digit, every character is a digit of the base, and it is "0" exactly for zero |
| Text.ZeroPad | USBStorage.py:228 | padding to a width ends with the original string, is preceded only by '0's, and is as long as the width or the string, whichever is longer |
| Text.DigitsValue | USBStorage.py:247 | reading back the digits of `n` gives `n` (round trip of the formatting) |
| Text.ZeroPadValue | USBStorage.py:228 | leading zeros do not change the value of a digit string |
| Text.DigitsLength | USBStorage.py:228 | a number below base^w has at most w digits |
| Text.PaddedDigits | USBStorage.py:228 | zero-padding the digits of a number below base^w to width w gives exactly w digits that read back as the number |
| Configfs.MakeDirsNoop | USBGadget.py:19-24 | `makedirs(exist_ok=True)` on an existing directory succeeds and changes nothing |
| Configfs.MakeDirsDomain | USBGadget.py:19-24 | makedirs adds exactly the missing components of the path, as directories, and keeps every other entry |
| Configfs.MakeDirsExtends | USBGadget.py:19-24 | makedirs never removes or changes an existing entry |
| Configfs.MakeDirsWellFormed | USBGadget.py:19-24 | makedirs keeps the tree well formed and leaves a directory at the path |
| Configfs.MakeDirsAllDirs | USBGadget.py:19-24 | after makedirs every component of the path is a directory |
| Configfs.CannotMakeDirsExtends | USBGadget.py:19-24 | a makedirs that fails on a tree still fails after the tree only grew |
| Configfs.WriteWellFormed | USBGadget.py:10-16 | a successful write keeps the tree well formed, leaves the file holding the text, and creates or rewrites only that file |
| Configfs.SymlinkWellFormed | USBGadget.py:106-115 | a successful symlink keeps the tree well formed and adds only the link, to the target, at a path that was free |
| Configfs.UnlinkWellFormed | USBGadget.py:139-149 | unlinking a non-directory keeps the tree well formed |
| Configfs.PruneWellFormed | USBGadget.py:152-178 | rmtree keeps the tree well formed |
| Configfs.RmdirWellFormed | USBGadget.py:159-163 | rmdir of an empty directory keeps the tree well formed |
| Configfs.PruneOnlyBelow | USBGadget.py:139-178 | two trees that differ only strictly below a directory leave the same tree after rmtree of it |
| Configfs.ChildrenMember | USBGadget.py:141 | `os.listdir` lists a name exactly when the directory has an entry of that name |
| Configfs.SameOutsideMakeDirs | USBGadget.py:19-24 | makedirs of a path inside a directory whose parent exists changes nothing outside that directory |
| Configfs.PruneSameOutside | USBGadget.py:177-178 | rmtree of a directory from a tree that differs from t0 only inside it gives back t0, when t0 has nothing there |
| Configfs.MakeDirs | USBGadget.py:19-24 | definition: `os.makedirs(exist_ok=True)` adds every missing component as a directory; `CanMakeDirs` says when it raises (a component that is not a directory) |
| Configfs.Write | USBGadget.py:10-16 | definition: `open(p, "w").write(s)` sets the file; `CanWrite` says it raises unless the parent is a directory and p is no directory or link |
| Configfs.Symlink | USBGadget.py:106-115 | definition: `os.symlink` adds the link; `CanSymlink` says it raises when anything is at the path or the parent is no directory |
| Configfs.Unlink | USBGadget.py:139-149 | definition: `os.unlink` removes the entry; `CanUnlink` says it raises on a missing path or a directory |
| Configfs.Prune | USBGadget.py:152-178 | definition: `shutil.rmtree` removes the path and everything below it; `CanRmtree` says it raises unless the path is a directory |
| Configfs.Rmdir | USBGadget.py:159-163 | definition: `os.rmdir` removes the path; `CanRmdir` says it raises unless it is an empty directory |
| Configfs.Exists | USBGadget.py:109-112 | definition: `os.path.exists` follows one link and is false for a dangling one |
| Configfs.Children | USBGadget.py:141 | definition: `os.listdir` as the set of entry names directly inside the path |
| Storage.PartitionNode | USBStorage.py:55-56 | the partition node is loopXp1 exactly when that node exists, and loopX1 otherwise |
| Storage.BumpTarget | USBStorage.py:221-222 | the bump works on the partition node when it exists, else on the whole loop device |
| Storage.Poll | USBStorage.py:59-62 | at most 20 checks; the tick returned is the first at which the node is seen, or 20; the node is seen by then exactly when it appears within the 20 ticks |
| Storage.Run | USBStorage.py:44-64 | a run of `subprocess.run` calls starts a prefix of its commands; none but the last raised, and it stops early only after one that raised |
| Storage.RunOutcome | USBStorage.py:44-64 | the sequence completes exactly when no step raises, otherwise it raises with the last command started |
| Storage.RunCompleted | USBStorage.py:44-64 | a sequence that completes runs every one of its commands |
| Storage.FormatPartition | USBStorage.py:44-64 | the try block (mklabel, mkpart, partprobe with check=False, the poll, mkfs.vfat on the partition node) runs exactly the plan up to its first exception |
| Storage.CreatePartitioned | USBStorage.py:33-66 | after the allocator, the partitioned layout attaches, runs the try block and always detaches in the finally clause |
| Storage.AttachTrace | USBStorage.py:33-66 | a failed attach ends image creation with that exception; a successful one is followed by the try block and the detach |
| Storage.ImageCreate | USBStorage.py:10-68 | image_create issues exactly the trace and ends with exactly the outcome of the reference definition, for every host |
| Storage.CreateAllocatesOnce | USBStorage.py:14-30 | for a missing image the first command is the allocator (fallocate exactly when it is installed, dd otherwise) and no later command allocates again |
| Storage.CreateWholeImage | USBStorage.py:67-68 | without all three of losetup, parted and mkfs.vfat there is no loop device or partition table, and a successful run is the allocator followed by mkfs.vfat on the image |
| Storage.CreatePartitionedImage | USBStorage.py:33-66 | with all three tools and no failure the trace is: allocate, attach, mklabel, mkpart, partprobe, mkfs.vfat on the partition node, detach |
| Storage.CreateDetaches | USBStorage.py:65-66 | on every path every successful attach is later followed by the detach of that loop device |
| Storage.Mount | USBStorage.py:80-161 | mount and mount_ro attach the image when losetup exists, then mount the partition node if it showed up within the polls, else the image through a loop device; only a missing mount program raises |
| Storage.MountModeRespected | USBStorage.py:111-161 | the mount command is read-only exactly for mount_ro, whichever device it mounts, and always targets the data directory |
| Storage.ParseDevice | USBStorage.py:177 | the device name taken from a listing line has no ':' and no surrounding whitespace |
| Storage.Devices | USBStorage.py:175-178 | the non-empty device names of the lines, never more than there are lines |
| Storage.DetachListed | USBStorage.py:175-179 | the loop over the listing lines detaches the non-empty device names and nothing else, in order |
| Storage.Umount | USBStorage.py:164-185 | umount unmounts, then with losetup lists the image's loop devices and detaches each listed one; a missing umount raises before anything else |
| Storage.DetachesAppend | USBStorage.py:175-179 | the detaches of two lists of devices are the detaches of each, in order |
| Storage.ParseListingLine | USBStorage.py:169-177 | the device name parsed from a `losetup -j` line is the device that line names |
| Storage.DevicesOfListing | USBStorage.py:175-178 | the devices parsed from a listing are exactly the listed devices |
| Storage.ListingRoundTrip | USBStorage.py:169-179 | for any `losetup -j` output with one line per device, each ended by a line break, umount (which strips the output) detaches exactly those devices, in order |
| Storage.LabelFormat | USBStorage.py:228 | the volume label is 12 characters: "RECEIVE" and five decimal digits that read back as seconds mod 100000 |
| Storage.SerialFormat | USBStorage.py:247 | the volume serial is eight upper-case hex digits that read back as milliseconds mod 2^32 |
| Storage.BumpFatVolumeMetadata | USBStorage.py:196-256 | bump_fat_volume_metadata issues exactly the trace of the reference definition (nothing without losetup; otherwise attach, relabel, detach) |
| Storage.BumpDetaches | USBStorage.py:252-256 | the loop device the bump attaches is always detached in the finally clause |
| Storage.BumpRelabelsOnce | USBStorage.py:224-251 | at most one relabelling program runs, on the bump target; fatlabel wins over dosfslabel and both win over mlabel |
| Storage.Label | USBStorage.py:228 | definition: the FAT label "RECEIVE" and the seconds mod 100000 as five decimal digits |
| Storage.Serial | USBStorage.py:247 | definition: the FAT serial, the milliseconds mod 2^32 as eight upper-case hexadecimal digits |
| Storage.CreateTrace | USBStorage.py:10-68 | definition: the commands `image_create` runs on a host, in order; `Storage.CreateOutcome` is how it ends |
| Storage.MountCommand | USBStorage.py:110-161 | definition: the mount command issued, on the partition node when it showed up and through a loop device otherwise, read-only for `mount_ro` |
| Storage.Relabel | USBStorage.py:224-251 | definition: the relabelling command, fatlabel, then dosfslabel, then mlabel, whichever is installed first |
| Storage.BumpTrace | USBStorage.py:196-256 | definition: the commands `bump_fat_volume_metadata` runs on a host, in order |
| Storage.Detaches | USBStorage.py:175-179 | one detach per device, in order |
| Gadget.UsbGadget.WriteFile | USBGadget.py:10-16 | `_write` succeeds exactly when the open and the kernel accept the value; the tree only changes file contents; the call is logged |
| Gadget.UsbGadget.EnsureDir | USBGadget.py:19-24 | `_ensure_dir` succeeds exactly when makedirs can, the tree only grows, and the call is logged |
| Gadget.UsbGadget.MakeLink | USBGadget.py:106-115 | a symlink is made exactly where nothing is and the parent is a directory; nothing else changes |
| Gadget.UsbGadget.RemoveEntry | USBGadget.py:143-147 | unlink removes exactly the entry when it is not a directory |
| Gadget.UsbGadget.RemoveTree | USBGadget.py:156-158 | rmtree of a directory removes it and everything below it, and fails otherwise |
| Gadget.UsbGadget.RemoveDir | USBGadget.py:159-163 | rmdir removes exactly an empty directory |
| Gadget.UsbGadget.TryMakeDirsKeeps | USBGadget.py:19-24 | `_ensure_dir` keeps the tree well formed and never removes or changes an entry |
| Gadget.UsbGadget.TryWriteKeeps | USBGadget.py:10-16 | `_write` keeps the tree well formed and changes at most one file's contents, at its path |
| Gadget.UsbGadget.TryMakeDirs | USBGadget.py:19-24 | definition: `_ensure_dir`, makedirs when it does not raise and no change otherwise |
| Gadget.UsbGadget.TryWrite | USBGadget.py:10-16 | definition: `_write`, the write when the parent, the path and the kernel accept it and no change otherwise |
| Gadget.UsbGadget.AttributesStep | USBGadget.py:61-69 | definition: the gadget directory, then idVendor 0x1d6b, idProduct 0x0104, bcdDevice 0x0100, bcdUSB 0x0200 |
| Gadget.UsbGadget.StringsStep | USBGadget.py:71-76 | definition: strings/0x409, then serialnumber and manufacturer "receiveit" and product "ReceiveIt" |
| Gadget.UsbGadget.ConfigStep | USBGadget.py:78-85 | definition: c.1, MaxPower 250, c.1/strings/0x409 and configuration "Config 1" |
| Gadget.UsbGadget.FunctionsStep | USBGadget.py:87-103 | definition: both function directories, lun.0, its file (the absolute image path) and removable 1 |
| Gadget.UsbGadget.LinksStep | USBGadget.py:105-115 | definition: each link only when nothing reachable is there, in one try block |
| Gadget.UsbGadget.BindStep | USBGadget.py:117-122 | definition: the write of the first UDC name |
| Gadget.UsbGadget.InitTree | USBGadget.py:61-122 | definition: the phases of init in order |
| Gadget.UsbGadget.LinksCalls | USBGadget.py:105-115 | definition: the symlink calls of the link phase, one per link not reachable yet, none after a failing first one |
| Gadget.UsbGadget.InitCalls | USBGadget.py:61-122 | definition: the calls of init once the image exists, phase by phase, the UDC write last |
| Gadget.UsbGadget.LinksCallsReady | USBGadget.py:105-115 | with c.1 in place and neither link there, the link phase issues both symlinks, ACM first |
| Gadget.UsbGadget.InitCallsFresh | USBGadget.py:61-122 | on a fresh slot with every write accepted, init issues every phase's calls, both symlinks, and the UDC write last |
| Gadget.UsbGadget.InitOutside | USBGadget.py:61-122 | init changes nothing outside the gadget directory, whichever writes fail, when the directory's parent exists |
| Gadget.UsbGadget.InitTreeKeeps | USBGadget.py:58-122 | no step of init removes an entry or replaces a directory or link; the tree stays well formed |
| Gadget.UsbGadget.AttributesLayout | USBGadget.py:61-69 | on a fresh slot the first phase creates the gadget directory and the four identity attributes with their values |
| Gadget.UsbGadget.StringsLayoutStep | USBGadget.py:71-76 | without a strings directory the strings phase adds exactly strings/0x409 and its serial number, manufacturer and product |
| Gadget.UsbGadget.ConfigLayoutStep | USBGadget.py:78-85 | without a configs directory the config phase adds exactly c.1, MaxPower=250 and its "Config 1" description |
| Gadget.UsbGadget.FunctionsLayoutStep | USBGadget.py:87-103 | without a functions directory the functions phase adds exactly both function directories, lun.0, its backing file (the image's absolute path) and removable=1 |
| Gadget.UsbGadget.LinksLayoutStep | USBGadget.py:105-115 | with neither link present both functions are linked into c.1 |
| Gadget.UsbGadget.BindLayoutStep | USBGadget.py:117-122 | binding writes exactly the first UDC name into the UDC attribute |
| Gadget.UsbGadget.InitLayout | USBGadget.py:58-122 | on a fresh slot with every write accepted, init builds exactly the gadget layout: the directory, attributes, strings, c.1, both functions with the LUN, both links and the UDC binding |
| Gadget.UsbGadget.SetAttributes | USBGadget.py:61-69 | the attribute phase as calls: the tree is its tree function's, and the log gains exactly the makedirs and the four writes, in order |
| Gadget.UsbGadget.SetStrings | USBGadget.py:71-76 | the strings phase as calls: the tree is its tree function's, and the log gains exactly the makedirs and the three writes, in order |
| Gadget.UsbGadget.SetConfig | USBGadget.py:78-85 | the config phase as calls: the tree is its tree function's, and the log gains exactly the two makedirs and two writes, in order |
| Gadget.UsbGadget.SetFunctions | USBGadget.py:87-103 | the functions phase as calls: the tree is its tree function's, and the log gains exactly the three makedirs and two writes, in order |
| Gadget.UsbGadget.LinkFunctions | USBGadget.py:105-115 | the link phase as calls: each link is made only when nothing reachable is there, a failing first symlink skips the second, and the log gains exactly the symlinks attempted |
| Gadget.UsbGadget.Build | USBGadget.py:61-122 | all phases and the bind: the tree is the init tree function's and the log gains exactly init's calls, the UDC write last |
| Gadget.UsbGadget.Init | USBGadget.py:47-125 | init raises before touching anything when configfs or a UDC is missing; an existing gadget makes it a no-op; a failing image command propagates before the tree is touched; otherwise it builds the whole layout and the log gains exactly init's calls, binding to the first UDC last |
| Gadget.UsbGadget.UnlinkCalls | USBGadget.py:139-149 | definition: the unlinks of the c.1 loop in visiting order, one per entry that is a link |
| Gadget.UsbGadget.RemoveCalls | USBGadget.py:152-165 | definition: the calls of the functions loop in visiting order, rmtree of each entry and rmdir after a failing rmtree |
| Gadget.UsbGadget.DeinitCalls | USBGadget.py:128-183 | definition: the calls of deinit: unbind, the two loops, rmtree of configs, strings and the gadget directory |
| Gadget.UsbGadget.UnlinkCallsExact | USBGadget.py:139-149 | visiting distinct names, every call is an unlink of a visited link of c.1, every visited link is unlinked, and no call repeats |
| Gadget.UsbGadget.RemoveCallsExact | USBGadget.py:152-165 | visiting distinct names, every call is an rmtree or rmdir of a visited entry of functions, each visited entry gets an rmtree, an rmdir follows exactly the failing ones, right after, and no call repeats |
| Gadget.UsbGadget.UnlinksEveryLink | USBGadget.py:139-149 | visiting c.1 in any listing order, deinit unlinks exactly the links directly inside c.1 |
| Gadget.UsbGadget.RemovesEveryFunction | USBGadget.py:152-165 | visiting functions in any listing order, deinit issues rmtree for exactly its entries and rmdir for exactly those that are not directories |
| Gadget.UsbGadget.UnlinkConfigLinks | USBGadget.py:139-149 | exactly the symbolic links directly inside c.1 are removed; nothing else changes, and nothing at all when c.1 is not a directory; the visited order is a listing of c.1 and the log gains exactly its unlinks |
| Gadget.UsbGadget.RemoveFunction | USBGadget.py:155-163 | rmtree of one entry, then rmdir when rmtree fails; the tree loses the entry's subtree exactly when it is a directory, and the log gains exactly those calls |
| Gadget.UsbGadget.RemoveFunctions | USBGadget.py:152-165 | every directory directly inside functions is removed with its subtree; any other entry there stays (rmtree and then rmdir both refuse it); nothing else changes; the visited order is a listing of functions and the log gains exactly its calls |
| Gadget.UsbGadget.ClearGadget | USBGadget.py:138-175 | the removals before the final rmtree change nothing outside the gadget directory, and the log gains exactly the two loops' calls and the rmtrees of configs and strings |
| Gadget.UsbGadget.Deinit | USBGadget.py:128-183 | on an initialised gadget the file system ends up as before minus the gadget directory and everything below it, and the log gains exactly deinit's calls, the unbind first; otherwise nothing happens |
| Gadget.UsbGadget.DeinitUndoesInit | USBGadget.py:47-183 | on a slot without a gadget whose parent directory exists, removing the gadget directory from what init built gives back the tree init started from, whichever attribute writes the kernel refuses |
| Gadget.UsbGadget.RemoveMassStorage | USBGadget.py:186-198 | whatever is at the mass-storage link is unlinked; the result is false exactly when a directory is there; the log gains the unlink exactly when anything is at the link |
| Gadget.UsbGadget.RemoveMsOnly | USBGadget.py:186-198 | remove_mass_storage touches no path but the link, and leaves the link path empty unless a directory is there |
| Gadget.UsbGadget.AddMassStorage | USBGadget.py:201-224 | the LUN is pointed at the configured image and the function linked into c.1 when nothing reachable is there; the result is false only when that symlink fails; the log gains exactly the two makedirs, the two writes and that symlink |
| Gadget.UsbGadget.AddMsExtends | USBGadget.py:206-224 | every step of add_mass_storage only grows the tree |
| Gadget.UsbGadget.AddMsIdempotent | USBGadget.py:201-224 | a second add_mass_storage leaves the tree the first one left |
| Gadget.UsbGadget.AddMsKeeps | USBGadget.py:217-224 | add_mass_storage never replaces what is at the link path and does not touch the ACM function, its link or the UDC |
| Gadget.UsbGadget.FillLunAgree | USBGadget.py:206-215 | filling the LUN changes no path other than lun.0, its components and its two attributes |
| Gadget.UsbGadget.TryMakeDirsIdem | USBGadget.py:19-24 | `_ensure_dir` repeated on a tree grown from its result changes nothing |
| Gadget.UsbGadget.TryWriteIdem | USBGadget.py:10-16 | the same write repeated changes nothing while the file and its directory are unchanged |
| Gadget.UsbGadget.LunFileRewrite | USBGadget.py:211 | add_mass_storage overwrites whatever the LUN file holds with the configured image |
| Gadget.UsbGadget.ReplaceMassStorageImage | USBGadget.py:227-249 | without a gadget it reports false and changes nothing; otherwise it unlinks, rewrites and re-adds the mass-storage function, and the log gains exactly those calls |
| Gadget.UsbGadget.RemoveMsTree | USBGadget.py:186-198 | definition: `remove_mass_storage` on the tree, the unlink unless a directory is at the link |
| Gadget.UsbGadget.AddMsTree | USBGadget.py:201-224 | definition: `add_mass_storage` on the tree, the LUN filled and the link made when nothing reachable is there |
| Gadget.UsbGadget.ReplaceTree | USBGadget.py:232-249 | definition: `replace_mass_storage_image` on the tree: remove, makedirs and write the LUN file, add |
| Gadget.UsbGadget.ReplaceCalls | USBGadget.py:232-249 | definition: the calls of `replace_mass_storage_image`: remove's, the makedirs and the write of the new image, add's |
| Gadget.UsbGadget.ReplaceWritesOver | USBGadget.py:243-246 | the write of the new image into the LUN file is followed, three calls later, by the write of the configured image, and no later call writes that file |
| Gadget.UsbGadget.ReplaceIgnoresImage | USBGadget.py:240-246 | the image argument makes no difference to the resulting tree |
| Gadget.UsbGadget.ReplacePrepares | USBGadget.py:236-243 | after the unlink and makedirs the LUN file is writable and c.1 and the ACM link are unchanged |
| Gadget.UsbGadget.ReplaceRelinks | USBGadget.py:243-246 | after any write to the LUN file, re-adding backs it by the configured image and links the function into c.1 unless something was already there, with the ACM link unchanged |
| Gadget.UsbGadget.ReplaceLayout | USBGadget.py:227-249 | on a gadget whose LUN can be made and written, replacing leaves the LUN backed by the configured image, c.1/mass_storage.0 a link to the function (or the directory that blocked its removal) and the ACM link as it was |

## Left out

- Real I/O is a parameter of the model:
  - the file system is the `tree` field, or for storage the `Host` value;
  - the kernel's refusal of attribute writes is the constant `rejects`;
  - the UDC listing is the constant `udcs`;
  - `os.path.abspath` is the constant `abspath`.
- The pauses (`time.sleep`) are left out. The polling loops count ticks instead of seconds.
- `time.time()` enters `bump_fat_volume_metadata` as two parameters:
  integer seconds and integer milliseconds. Floating point is not modelled.
- Not modelled, because they only test for or remove a file:
  - `image_delete` (USBStorage.py:71-73);
  - `image_exists` (USBStorage.py:76-77);
  - `is_mounted` (USBStorage.py:188-193).
- `os.makedirs(config.DATA_DIR)` at the start of `mount` and `mount_ro` is
  not modelled. The storage model has no file system of its own.
- What the kernel does behind configfs is not modelled. The model does not capture:
  - a gadget appearing on the bus;
  - configfs refusing `rmtree` and `rmdir` of non-empty directories;
  - function directories that the kernel populates.

  `shutil.rmtree` is modelled as removing the whole subtree. So the `rmdir`
  fallback at USBGadget.py:159-163 is issued only for an entry that is not a
  directory, and then fails too. The fallback at USBGadget.py:180-183 is never
  reached, because the gadget directory is a directory there.
- Gadget.UsbGadget.IsReady and Gadget.UsbGadget.IsInitialized model
  `is_ready` and `is_initialized` (USBGadget.py:27-44) as predicates. They
  have no contract of their own and appear in the contracts of `Init`,
  `Deinit` and `ReplaceMassStorageImage`.
- Symbolic links are only followed by `os.path.exists`, one step. A write or
  a makedirs through a link is treated as failing.
- Gadget.UsbGadget.Init: the check for a UDC just before binding
  (USBGadget.py:118-120) cannot fail in the model. The UDC list is read once,
  as the constant `udcs`.
- Gadget.UsbGadget.UnlinkConfigLinks and Gadget.UsbGadget.RemoveFunctions do
  not fix the order of `os.listdir`. Each picks the next entry arbitrarily
  and returns the order it visited as a ghost value. The contracts say that
  this order is a listing of the directory, and give the log in that order.
- Storage.Mount: the loop device that `mount` attaches stays attached, as it
  does in the code. No detach property is claimed for it.
- The standard output and error of the external programs are not modelled,
  including the redirection to `/dev/null`. Only what `losetup` prints is an
  input.
- Storage.Umount: the best-effort `except Exception` at USBStorage.py:180-182
  is not modelled as a separate path. Every command after `umount` either
  runs with check=False or reads output that is an input, so none of them
  raises.
- `usbimage.py` and `main.py`, which call these classes, are not part of
  this model.
