/** The plugin's help (help.go): the table of the sixteen subcommands, the
    lookup from a subcommand name to its entry, and the text printed for one
    entry or for the whole list.

    The command-name constants and the plugin namespace are declared in a part
    of the plugin that is not part of this model; the values below stand in for
    them. Every property proved here depends only on the sixteen names being
    pairwise different. */
module Help {
  import opened Common
  import Strings

  const Namespace := "os"

  const GetAuthInfoCommand := "get-auth-info"
  const ShowContainersCommand := "show-containers"
  const ContainerInfoCommand := "container-info"
  const MakeContainerCommand := "make-container"
  const UpdateContainerCommand := "update-container"
  const RenameContainerCommand := "rename-container"
  const DeleteContainerCommand := "delete-container"
  const ShowObjectsCommand := "show-objects"
  const ObjectInfoCommand := "object-info"
  const PutObjectCommand := "put-object"
  const GetObjectCommand := "get-object"
  const RenameObjectCommand := "rename-object"
  const CopyObjectCommand := "copy-object"
  const DeleteObjectCommand := "delete-object"
  const MakeDloCommand := "make-dlo"
  const MakeSloCommand := "make-slo"

  /** The CLI plugin library's usage record: a usage line and the options,
      keyed by flag name. */
  datatype Usage = Usage(usage: string, options: map<string, string>)

  datatype Command = Command(name: string, helpText: string, usageDetails: Usage)

  function Entry(name: string, helpText: string, arguments: string, options: map<string, string>): Command
  {
    Command(name, helpText, Usage("cf " + Namespace + " " + name + arguments, options))
  }

  /* The entries of the table, one function each. Long texts are written as
     concatenations of short literals. */

  function GetAuthInfoEntry(): Command
  {
    Entry(GetAuthInfoCommand, "Authenticate with " + "Object Storage and save " + "credentials",
          " service_name [--url] " + "[-x]",
          map["url" := "Display auth url in " + "quiet mode", "x" := "Display x-auth token in " + "quiet mode"])
  }

  function ShowContainersEntry(): Command
  {
    Entry(ShowContainersCommand, "Show all containers in " + "an Object Storage " + "instance",
          " service_name", map[])
  }

  function ContainerInfoEntry(): Command
  {
    Entry(ContainerInfoCommand, "Show a given " + "container's information",
          " service_name " + "container_name", map[])
  }

  function MakeContainerEntry(): Command
  {
    Entry(MakeContainerCommand, "Create a new container " + "in an Object Storage " + "instance",
          " service_name " + "container_name " + "[headers...] [r] [-r]",
          map["r" := "Short name for global " + "read header", "-r" := "Short name for remove " + "read restrictions header"])
  }

  function UpdateContainerEntry(): Command
  {
    Entry(UpdateContainerCommand, "Update a container's " + "metadata",
          " service_name " + "container_name " + "headers... [r] [-r]",
          map["r" := "Short name for global " + "read header", "-r" := "Short name for remove " + "read restrictions header"])
  }

  function RenameContainerEntry(): Command
  {
    Entry(RenameContainerCommand, "Rename a container",
          " service_name " + "container_name " + "new_container_name", map[])
  }

  function DeleteContainerEntry(): Command
  {
    Entry(DeleteContainerCommand, "Remove a container from " + "an Object Storage " + "instance",
          " service_name " + "container_name [-f]",
          map["f" := "Force delete even if " + "not empty"])
  }

  function ShowObjectsEntry(): Command
  {
    Entry(ShowObjectsCommand, "Show all objects in a " + "container",
          " service_name " + "container_name", map[])
  }

  function ObjectInfoEntry(): Command
  {
    Entry(ObjectInfoCommand, "Show a given object's " + "information",
          " service_name " + "container_name " + "object_name", map[])
  }

  function PutObjectEntry(): Command
  {
    Entry(PutObjectCommand, "Upload a file as an " + "object to Object Storage",
          " service_name " + "container_name " + "path_to_local_file [-n " + "object_name]", map[])
  }

  function GetObjectEntry(): Command
  {
    Entry(GetObjectCommand, "Download an object from " + "Object Storage",
          " service_name " + "container_name " + "object_name " + "path_to_dl_location", map[])
  }

  function RenameObjectEntry(): Command
  {
    Entry(RenameObjectCommand, "Rename an object",
          " service_name " + "container_name " + "object_name " + "new_object_name", map[])
  }

  function CopyObjectEntry(): Command
  {
    Entry(CopyObjectCommand, "Copy an object to " + "another container",
          " service_name " + "container_name " + "object_name " + "new_container_name", map[])
  }

  function DeleteObjectEntry(): Command
  {
    Entry(DeleteObjectCommand, "Remove an object from a " + "container",
          " service_name " + "container_name " + "object_name [-l]",
          map["l" := "Delete all files " + "associated with large " + "object manifest " + "object_name"])
  }

  function MakeDloEntry(): Command
  {
    Entry(MakeDloCommand, "Create a Dynamic Large " + "Object in Object Storage",
          " service_name " + "dlo_container dlo_name " + "[-c object_container] " + "[-p dlo_prefix]",
          map["c" := "Destination container " + "for DLO segments " + "(defaults to " + "dlo_container)",
              "p" := "Prefix to be used for " + "DLO segments (default " + "to dlo_name)"])
  }

  function MakeSloEntry(): Command
  {
    Entry(MakeSloCommand, "Create a Static Large " + "Object in Object Storage",
          " service_name " + "slo_container slo_name " + "source_file [-m] [-o " + "output_file] [-s " + "chunk_size] [-j " + "num_threads]",
          map["m" := "Only upload missing " + "chunks",
              "o" := "Destination for log " + "data, if desired",
              "s" := "Chunk size, in bytes " + "(defaults to create 1GB " + "chunks)",
              "j" := "Maximum number of " + "uploader threads " + "(defaults to the " + "available number of " + "CPUs)"])
  }

  /** The `subcommands` table, in its order. */
  const Subcommands: seq<Command> := [
    GetAuthInfoEntry(),
    ShowContainersEntry(),
    ContainerInfoEntry(),
    MakeContainerEntry(),
    UpdateContainerEntry(),
    RenameContainerEntry(),
    DeleteContainerEntry(),
    ShowObjectsEntry(),
    ObjectInfoEntry(),
    PutObjectEntry(),
    GetObjectEntry(),
    RenameObjectEntry(),
    CopyObjectEntry(),
    DeleteObjectEntry(),
    MakeDloEntry(),
    MakeSloEntry()
  ]

  /** The subcommand names, in the order of the table and of the help listing. */
  const SubcommandNames: seq<string> := [
    GetAuthInfoCommand, ShowContainersCommand, ContainerInfoCommand, MakeContainerCommand,
    UpdateContainerCommand, RenameContainerCommand, DeleteContainerCommand, ShowObjectsCommand,
    ObjectInfoCommand, PutObjectCommand, GetObjectCommand, RenameObjectCommand,
    CopyObjectCommand, DeleteObjectCommand, MakeDloCommand, MakeSloCommand
  ]

  /** The `subcommandMap` table: each name keyed to the table entry of the
      same position. */
  const SubcommandMap: map<string, Command> := map[
    GetAuthInfoCommand := Subcommands[0],
    ShowContainersCommand := Subcommands[1],
    ContainerInfoCommand := Subcommands[2],
    MakeContainerCommand := Subcommands[3],
    UpdateContainerCommand := Subcommands[4],
    RenameContainerCommand := Subcommands[5],
    DeleteContainerCommand := Subcommands[6],
    ShowObjectsCommand := Subcommands[7],
    ObjectInfoCommand := Subcommands[8],
    PutObjectCommand := Subcommands[9],
    GetObjectCommand := Subcommands[10],
    RenameObjectCommand := Subcommands[11],
    CopyObjectCommand := Subcommands[12],
    DeleteObjectCommand := Subcommands[13],
    MakeDloCommand := Subcommands[14],
    MakeSloCommand := Subcommands[15]
  ]

  ghost predicate Distinct(xs: seq<string>)
  {
    forall i, j :: 0 <= i < j < |xs| ==> xs[i] != xs[j]
  }

  /** The listing and the map know the same sixteen names. */
  lemma NamesAreTheKeys()
    ensures |SubcommandNames| == |Subcommands| == 16
    ensures forall k :: k in SubcommandMap <==> k in SubcommandNames
  {
  }

  /** Every table entry is filed under its own name. */
  lemma EntriesFiledUnderTheirNames()
    ensures forall k :: k in SubcommandMap ==> SubcommandMap[k].name == k
  {
  }

  /** The part of the help text every subcommand has. */
  function Header(c: Command): string
  {
    "NAME:\n\t" + c.name + " - " + c.helpText + "\n\nUSAGE:\n\t" + c.usageDetails.usage + "\n"
  }

  const OptionsHeading := "\nOPTIONS:\n"

  /** Option keys are printed with a leading '-', except for the two container
      commands, whose keys are header short names. */
  function Dash(c: Command): string
  {
    if c.name != MakeContainerCommand && c.name != UpdateContainerCommand then "-" else ""
  }

  function OptionLine(c: Command, key: string): string
    requires key in c.usageDetails.options
  {
    "\t" + Dash(c) + key + "\t\t" + c.usageDetails.options[key] + "\n"
  }

  /** `order` lists every key of `m` exactly once. Go visits a map in an
      unspecified order, so the model takes that order as a parameter. */
  ghost predicate Enumerates(order: seq<string>, m: map<string, string>)
  {
    && Distinct(order)
    && forall k :: k in m <==> k in order
  }

  /** One line per key, in the order the map was visited. */
  function OptionLines(c: Command, order: seq<string>): (lines: seq<string>)
    requires forall k :: k in order ==> k in c.usageDetails.options
    ensures |lines| == |order|
    ensures forall i :: 0 <= i < |order| ==> lines[i] == OptionLine(c, order[i])
  {
    seq(|order|, i requires 0 <= i < |order| => OptionLine(c, order[i]))
  }

  /** `toString`: the header, then, when the command has options, the options
      heading and one line per option. */
  function ToString(c: Command, order: seq<string>): (s: string)
    requires Enumerates(order, c.usageDetails.options)
    ensures Header(c) <= s
    ensures s == Header(c) <==> |c.usageDetails.options| == 0
    ensures |c.usageDetails.options| > 0 ==> s == Header(c) + OptionsHeading + Strings.Concat(OptionLines(c, order))
  {
    var options := c.usageDetails.options;
    if |options| > 0 then
      Header(c) + OptionsHeading + Strings.Concat(OptionLines(c, order))
    else
      Header(c)
  }

  /** A duplicate-free sequence holds each of its elements once. */
  lemma {:induction false} DistinctMultiplicity(xs: seq<string>, x: string)
    requires Distinct(xs)
    ensures multiset(xs)[x] == if x in xs then 1 else 0
  {
    if xs != [] {
      assert xs == [xs[0]] + xs[1..];
      assert Distinct(xs[1..]) by {
        forall i, j | 0 <= i < j < |xs[1..]|
          ensures xs[1..][i] != xs[1..][j]
        {
          assert xs[1..][i] == xs[i + 1] && xs[1..][j] == xs[j + 1];
        }
      }
      DistinctMultiplicity(xs[1..], x);
      if x == xs[0] {
        assert x !in xs[1..] by {
          forall j | 0 <= j < |xs[1..]|
            ensures xs[1..][j] != x
          {
            assert xs[1..][j] == xs[j + 1];
          }
        }
      }
    }
  }

  /** Two enumerations of the same map are permutations of each other. */
  lemma EnumerationsArePermutations(o1: seq<string>, o2: seq<string>, m: map<string, string>)
    requires Enumerates(o1, m) && Enumerates(o2, m)
    ensures multiset(o1) == multiset(o2)
  {
    forall x
      ensures multiset(o1)[x] == multiset(o2)[x]
    {
      DistinctMultiplicity(o1, x);
      DistinctMultiplicity(o2, x);
    }
  }

  /** Taking out the element at `j` leaves the multiset short of one copy of it. */
  lemma MultisetRemove(xs: seq<string>, j: int)
    requires 0 <= j < |xs|
    ensures multiset(xs) == multiset(xs[..j] + xs[j + 1..]) + multiset{xs[j]}
  {
    assert xs == xs[..j] + [xs[j]] + xs[j + 1..];
  }

  /** Dropping a key drops its line and keeps the others in order. */
  lemma OptionLinesRemove(c: Command, order: seq<string>, j: int)
    requires forall k :: k in order ==> k in c.usageDetails.options
    requires 0 <= j < |order|
    ensures forall k :: k in order[..j] + order[j + 1..] ==> k in c.usageDetails.options
    ensures OptionLines(c, order[..j] + order[j + 1..])
         == OptionLines(c, order)[..j] + OptionLines(c, order)[j + 1..]
  {
    var rest := order[..j] + order[j + 1..];
    var lines := OptionLines(c, order);
    forall i | 0 <= i < |rest|
      ensures rest[i] == order[if i < j then i else i + 1]
    {
    }
    assert forall k :: k in rest ==> k in order;
    var kept := lines[..j] + lines[j + 1..];
    forall i | 0 <= i < |rest|
      ensures OptionLines(c, rest)[i] == kept[i]
    {
      assert kept[i] == lines[if i < j then i else i + 1];
    }
  }

  /** The line of the first key, taken out of the lines of `order`. */
  lemma OptionLinesPeelFirst(c: Command, order: seq<string>)
    requires forall k :: k in order ==> k in c.usageDetails.options
    requires order != []
    ensures multiset(OptionLines(c, order))
         == multiset(OptionLines(c, order[1..])) + multiset{OptionLine(c, order[0])}
  {
    var lines := OptionLines(c, order);
    assert forall k :: k in order[1..] ==> k in order;
    var tail := OptionLines(c, order[1..]);
    assert lines[..0] + lines[1..] == tail by {
      forall i | 0 <= i < |tail|
        ensures tail[i] == lines[i + 1]
      {
        assert order[1..][i] == order[i + 1];
      }
    }
    MultisetRemove(lines, 0);
  }

  /** The line of the key at `j`, taken out of the lines of `order`. */
  lemma OptionLinesPeelAt(c: Command, order: seq<string>, j: int)
    requires forall k :: k in order ==> k in c.usageDetails.options
    requires 0 <= j < |order|
    ensures forall k :: k in order[..j] + order[j + 1..] ==> k in c.usageDetails.options
    ensures multiset(OptionLines(c, order))
         == multiset(OptionLines(c, order[..j] + order[j + 1..])) + multiset{OptionLine(c, order[j])}
  {
    OptionLinesRemove(c, order, j);
    MultisetRemove(OptionLines(c, order), j);
  }

  /** The first element of a sequence sits somewhere in any permutation of it,
      and the rests are permutations of each other. */
  lemma PermutationPosition(o1: seq<string>, o2: seq<string>) returns (j: int)
    requires o1 != [] && multiset(o1) == multiset(o2)
    ensures 0 <= j < |o2| && o2[j] == o1[0]
    ensures multiset(o1[1..]) == multiset(o2[..j] + o2[j + 1..])
  {
    assert o1[0] in multiset(o2);
    j :| 0 <= j < |o2| && o2[j] == o1[0];
    MultisetRemove(o1, 0);
    MultisetRemove(o2, j);
    assert o1[..0] + o1[1..] == o1[1..];
    var m1, m2 := multiset(o1[1..]), multiset(o2[..j] + o2[j + 1..]);
    forall y
      ensures m1[y] == m2[y]
    {
      assert multiset(o1)[y] == multiset(o2)[y];
    }
  }

  /** Permuting the keys permutes the option lines. */
  lemma {:induction false} OptionLinesOfPermutation(c: Command, o1: seq<string>, o2: seq<string>)
    requires forall k :: k in o1 ==> k in c.usageDetails.options
    requires multiset(o1) == multiset(o2)
    ensures forall k :: k in o2 ==> k in c.usageDetails.options
    ensures multiset(OptionLines(c, o1)) == multiset(OptionLines(c, o2))
    decreases |o1|
  {
    forall k | k in o2
      ensures k in c.usageDetails.options
    {
      assert k in multiset(o1);
    }
    if o1 != [] {
      var j := PermutationPosition(o1, o2);
      OptionLinesOfPermutation(c, o1[1..], o2[..j] + o2[j + 1..]);
      OptionLinesPeelFirst(c, o1);
      OptionLinesPeelAt(c, o2, j);
    }
  }

  /** Whatever order Go visits the options in, the same lines are printed, one
      per option. */
  lemma OptionLinesOrderIndependent(c: Command, o1: seq<string>, o2: seq<string>)
    requires Enumerates(o1, c.usageDetails.options) && Enumerates(o2, c.usageDetails.options)
    ensures multiset(OptionLines(c, o1)) == multiset(OptionLines(c, o2))
  {
    EnumerationsArePermutations(o1, o2, c.usageDetails.options);
    OptionLinesOfPermutation(c, o1, o2);
  }

  /** `getSubcommandHelp`: the entry's help text, or an error naming the
      unknown subcommand. */
  function GetSubcommandHelp(name: string, order: seq<string>): (r: Result<string>)
    requires name in SubcommandMap ==> Enumerates(order, SubcommandMap[name].usageDetails.options)
    ensures r.Err? <==> name !in SubcommandMap
    ensures r.Err? ==> r.msg == name + " is not a valid subcommand"
    ensures r.Ok? ==> r.value == ToString(SubcommandMap[name], order)
    ensures r.Ok? ==> Header(SubcommandMap[name]) <= r.value
  {
    if name !in SubcommandMap then Err(name + " is not a valid subcommand")
    else Ok(ToString(SubcommandMap[name], order))
  }

  /** Lines of the listing printed when no subcommand is given. */
  function ListingLines(names: seq<string>): (lines: seq<string>)
    ensures |lines| == |names|
    ensures forall i :: 0 <= i < |names| ==> lines[i] == "      " + names[i] + "\n"
  {
    if names == [] then [] else ["      " + names[0] + "\n"] + ListingLines(names[1..])
  }

  const Listing := "Please provide a subcommand to fetch its help info\n"
                   + "Available subcommands:\n"
                   + Strings.Concat(ListingLines(SubcommandNames))

  /** `help`: with fewer than three words the listing of all subcommands;
      otherwise the help of the subcommand named by the third word. The result
      is the text printed, or the error returned. */
  function HelpCommand(args: seq<string>, order: seq<string>): (r: Result<string>)
    requires |args| >= 3 && args[2] in SubcommandMap ==>
      Enumerates(order, SubcommandMap[args[2]].usageDetails.options)
    ensures |args| < 3 ==> r == Ok(Listing)
    ensures |args| >= 3 ==> (r.Err? <==> args[2] !in SubcommandMap)
    ensures |args| >= 3 ==> r == GetSubcommandHelp(args[2], order)
  {
    if |args| < 3 then Ok(Listing)
    else GetSubcommandHelp(args[2], order)
  }

  /** The listing names each valid subcommand on its own line, indented by six
      spaces, and nothing else. */
  lemma ListingNamesEverySubcommand()
    ensures |ListingLines(SubcommandNames)| == 16
    ensures forall i :: 0 <= i < 16 ==> ListingLines(SubcommandNames)[i] == "      " + SubcommandNames[i] + "\n"
    ensures forall k :: k in SubcommandMap <==> k in SubcommandNames
  {
    NamesAreTheKeys();
  }

  /** The make-slo help advertises a "-j" thread option, which no flag of that
      name backs: the command reads its thread count from "t". */
  lemma SloHelpAdvertisesJ()
    ensures "j" in SubcommandMap[MakeSloCommand].usageDetails.options
    ensures "t" !in SubcommandMap[MakeSloCommand].usageDetails.options
  {
  }
}
