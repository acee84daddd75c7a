# Quagga providers for Puppet, modelled in Dafny

This project models the core of a Puppet module that manages a Quagga router
through `vtysh`. The module reads the router's `show running-config`, turns it
into one record per managed resource (`self.instances`), hands each declared
resource the record named after it (`self.prefetch`), and writes `vtysh`
command scripts that move the router to the declared state. The model covers:

- the `quagga_interface` provider:
  - its property table (`@resource_map`);
  - the block scanner;
  - `create`, `destroy`, `enable`, `disable` and `flush`;
  - the generated getters and setters;
- the `quagga_bgp_community_list` provider:
  - the scanner that groups `ip community-list` lines into lists;
  - `create`, `destroy`, `rules` and `rules=`;
- the `quagga_bgp_network` provider:
  - the scanner that names each ` network P` line of a `router bgp AS` block `"AS P"`;
  - `create`, `destroy` and `exists?`;
- the `ospf_interface` type: how each OSPF parameter is validated and normalised.

The `vtysh` calls are not modelled. A scanner takes the configuration as its
sequence of lines. A command builder returns the script it would send:
`Vtysh.Session` gives the script's envelope and `Vtysh.Argv` gives the `-c`
argument vector.

Each scanner is a `while` loop over the lines (`Instances`). It is proved
equal to a recursive specification (`Parse`/`Scan`). The properties are
proved about that specification:

- the records each header yields;
- what a line inside or outside a block does;
- that the script a provider writes reads back as the record it describes.

Each provider is a `class`:

- its fields hold `@property_hash`;
- for the interface provider, a further field holds `@property_flush`;
- its methods state the script they return and the fields they leave.

The modules, one per file:

| module | models |
|---|---|
| `Common` | option, result and `:present`/`:absent` |
| `Text` | character classes, Ruby's `to_i`, fixed-prefix matching for the regular expressions |
| `Vtysh` | the session envelope and the argument vector |
| `Prefetch` | `providers.find` by name |
| `InterfaceSchema` | `@resource_map`: patterns, templates, types, defaults |
| `InterfaceScan` | the interface scanner |
| `InterfaceConfig` | the running configuration a set of interface records prints, and its round trip through the scanner |
| `InterfaceProvider` | the interface provider's instance side |
| `CommunityList` | the community-list provider |
| `BgpNetwork` | the BGP network provider |
| `OspfInterface` | the OSPF interface type |

`flush` writes `ip address X` for every wanted address, old ones included
(lib/puppet/provider/quagga_interface/quagga.rb:220-222);
`InterfaceProvider.AddressChange` states this.

## Model

| member | source | states |
|---|---|---|
| InterfaceSchema.Match | lib/puppet/provider/quagga_interface/quagga.rb:4-29 | a descriptor's regexp matches only when its fixed prefix is present; `link-detect` alone matches without a capture |
| InterfaceSchema.DefaultsAdmissible | lib/puppet/provider/quagga_interface/quagga.rb:4-29 | every default is a value of its property's type; only the array property defaults to a list |
| InterfaceSchema.MatchesDisjoint | lib/puppet/provider/quagga_interface/quagga.rb:6-24 | no line is matched by two descriptors, so the `break` after the first match hides nothing |
| InterfaceSchema.MatchConfigLine | lib/puppet/provider/quagga_interface/quagga.rb:4-29 | each descriptor recognises the line its pattern spells and captures the argument (none for `link-detect`) |
| InterfaceScan.HeaderName | lib/puppet/provider/quagga_interface/quagga.rb:50-51 | a header's captured name is a non-empty run of `[\w\d\.]` |
| InterfaceScan.Fresh | lib/puppet/provider/quagga_interface/quagga.rb:59-72 | a header opens a record that is present and enabled, with description and bandwidth `:absent`, link_detect `:false` and an empty address list |
| InterfaceScan.FirstMatch | lib/puppet/provider/quagga_interface/quagga.rb:76-103 | the property found is one whose pattern matches, with its capture; none is found only when no pattern matches |
| InterfaceScan.Store | lib/puppet/provider/quagga_interface/quagga.rb:80-98 | recording a capture keeps the record's shape and changes no other property |
| InterfaceScan.ApplyLine | lib/puppet/provider/quagga_interface/quagga.rb:75-104 | a line inside a block keeps the record's name, ensure and shape |
| InterfaceScan.Step | lib/puppet/provider/quagga_interface/quagga.rb:46-105 | one line keeps the scanner's state valid: `found_interface` implies an open record, which is present, well named and shaped |
| InterfaceScan.ApplyPropertyLine | lib/puppet/provider/quagga_interface/quagga.rb:76-103 | the inner loop over the table, with its `break`, updates the record exactly as the line's specification says |
| InterfaceScan.ScanFrom | lib/puppet/provider/quagga_interface/quagga.rb:46-105 | the scan from a line is that line's step followed by the scan of the lines after it |
| InterfaceScan.Instances | lib/puppet/provider/quagga_interface/quagga.rb:38-113 | the scanning loop returns exactly the specified records |
| InterfaceScan.NamesConcat | lib/puppet/provider/quagga_interface/quagga.rb:56-109 | the names of two record lists joined are their names joined |
| InterfaceScan.StepNames | lib/puppet/provider/quagga_interface/quagga.rb:50-72 | one line keeps the names of the emitted and open records equal to the previously open one plus the line's header name |
| InterfaceScan.ScanNames | lib/puppet/provider/quagga_interface/quagga.rb:42-112 | the scan emits the open record and then one record per header, named after it, in order |
| InterfaceScan.ParseNames | lib/puppet/provider/quagga_interface/quagga.rb:42-112 | each `interface NAME` header yields exactly one record named NAME, in order; no headers, no records |
| InterfaceScan.ScanValid | lib/puppet/provider/quagga_interface/quagga.rb:59-72 | every record the scan emits is present, well named and of the table's shape |
| InterfaceScan.ParseValid | lib/puppet/provider/quagga_interface/quagga.rb:38-113 | every parsed record is present, well named and of the table's shape |
| InterfaceScan.Unindented | lib/puppet/provider/quagga_interface/quagga.rb:76-103 | an empty line or one that does not start with `\s` (such as `!`) changes nothing inside a block |
| InterfaceScan.OutsideIgnored | lib/puppet/provider/quagga_interface/quagga.rb:73-75 | outside a block, lines without a header are not attributed to any record |
| InterfaceScan.BlockClosed | lib/puppet/provider/quagga_interface/quagga.rb:73-75 | the first top-level line closes the block; the lines after it, up to the next header, are ignored |
| InterfaceScan.ApplyAllConcat | lib/puppet/provider/quagga_interface/quagga.rb:75-104 | applying two runs of body lines is applying one after the other |
| InterfaceScan.ScanBody | lib/puppet/provider/quagga_interface/quagga.rb:75-104 | inside a block, body lines act on the open record one after the other |
| InterfaceScan.HeaderNameOfHeaderLine | lib/puppet/provider/quagga_interface/quagga.rb:50-51 | `interface NAME` for a valid name is read back as NAME |
| InterfaceScan.HeaderBlock | lib/puppet/provider/quagga_interface/quagga.rb:50-72 | a header emits the previously open record and opens a fresh record that collects its body |
| InterfaceScan.FirstMatchIff | lib/puppet/provider/quagga_interface/quagga.rb:76-101 | the inner loop stops at a property exactly when that property's pattern matches |
| InterfaceScan.ApplyMatched | lib/puppet/provider/quagga_interface/quagga.rb:77-101 | a matched line that is not ` shutdown` stores its capture in its own property |
| InterfaceScan.ApplyConfigLine | lib/puppet/provider/quagga_interface/quagga.rb:77-101 | a description replaces the old one, an address is appended, a bandwidth is stored as its integer, `link-detect` sets the flag, and nothing else changes |
| InterfaceScan.ApplyShutdown | lib/puppet/provider/quagga_interface/quagga.rb:77-78 | ` shutdown` disables the interface and changes nothing else |
| InterfaceScan.TemplateIndented | lib/puppet/provider/quagga_interface/quagga.rb:4-29 | each template, rendered and indented by one blank, is the line its own descriptor recognises |
| InterfaceConfig.BlockBodyLines | lib/puppet/provider/quagga_interface/quagga.rb:73-75 | the printed lines of a record's block neither open nor close a block |
| InterfaceConfig.ApplyAddressLines | lib/puppet/provider/quagga_interface/quagga.rb:86-87 | the address lines append their addresses, in order, to the record's list |
| InterfaceConfig.ApplyBlock | lib/puppet/provider/quagga_interface/quagga.rb:59-104 | scanning a record's own block, from a fresh record of its name, rebuilds the record |
| InterfaceConfig.ScanRunningConfig | lib/puppet/provider/quagga_interface/quagga.rb:38-113 | scanning the printed configuration of some records emits the open record and then those records |
| InterfaceConfig.ParseRunningConfig | lib/puppet/provider/quagga_interface/quagga.rb:38-113 | `self.instances` reads back exactly the records a running configuration prints |
| InterfaceConfig.UplinkExample | lib/puppet/provider/quagga_interface/quagga.rb:38-113 | an `eth0` block with a description, one address and `link-detect` gives one enabled record with those values and no bandwidth |
| InterfaceProvider.Assign | lib/puppet/provider/quagga_interface/quagga.rb:244-246 | setting a pending value keeps a key's first position, or appends a new key last |
| InterfaceProvider.Provider.Set | lib/puppet/provider/quagga_interface/quagga.rb:244-246 | the setter records the pending value and only that |
| InterfaceProvider.Provider.Get | lib/puppet/provider/quagga_interface/quagga.rb:240-242 | the getter gives the stored value, or `:absent` when the hash has none |
| InterfaceProvider.Provider.FromRecord | lib/puppet/provider/quagga_interface/quagga.rb:33-36 | a provider built from a parsed record holds its hash, has nothing pending, and exists exactly when the record is present |
| InterfaceProvider.Provider.Unmatched | lib/puppet/provider/quagga_interface/quagga.rb:33-36 | a provider with an empty hash does not exist, has no `enable` and reads every property as `:absent` |
| InterfaceProvider.CreateBody | lib/puppet/provider/quagga_interface/quagga.rb:133-138 | `create` writes at most one command per property (corrected guard) |
| InterfaceProvider.CreateBodyLines | lib/puppet/provider/quagga_interface/quagga.rb:133-138 | a command is in `create`'s body exactly when it renders a property that is set (corrected guard) |
| InterfaceProvider.TemplateLetter | lib/puppet/provider/quagga_interface/quagga.rb:4-29 | every rendered template starts with its property's own letter, so two properties never render the same command |
| InterfaceProvider.CreateLinkDetect | lib/puppet/provider/quagga_interface/quagga.rb:134-136 | `create` writes `link-detect` exactly when link_detect is to be `:true` (corrected guard) |
| InterfaceProvider.CreateLinkDetectAsWritten | lib/puppet/provider/quagga_interface/quagga.rb:134-136 | with the guard as written, `link_detect => false` writes `link-detect`; the corrected guard does not |
| InterfaceProvider.Provider.Create | lib/puppet/provider/quagga_interface/quagga.rb:124-144 | the script is the envelope around `interface NAME` and one rendered template per set property, in table order (corrected guard) |
| InterfaceProvider.Provider.Destroy | lib/puppet/provider/quagga_interface/quagga.rb:150-163 | the script is exactly `configure terminal`, `interface N`, `shutdown`, `exit`, `no interface N`, `end`, `write memory` |
| InterfaceProvider.Provider.Enable | lib/puppet/provider/quagga_interface/quagga.rb:165-177 | the script is `no shutdown` in the envelope; the hash then records the interface as enabled |
| InterfaceProvider.Provider.Disable | lib/puppet/provider/quagga_interface/quagga.rb:179-191 | the script is `shutdown` in the envelope; the hash then records the interface as disabled |
| InterfaceProvider.Provider.Flush | lib/puppet/provider/quagga_interface/quagga.rb:197-237 | the hash takes the loop's result; when something is pending and nothing raises, the script is the envelope around the changes, and the pending values are cleared; an entry that raises sends and clears nothing |
| InterfaceProvider.RunFlush | lib/puppet/provider/quagga_interface/quagga.rb:207-229 | the loop over the pending values gives exactly the specified commands, hash and outcome |
| InterfaceProvider.ChangeCommands | lib/puppet/provider/quagga_interface/quagga.rb:208-226 | the commands for one pending value are the specified ones |
| InterfaceProvider.ArrayCommands | lib/puppet/provider/quagga_interface/quagga.rb:215-222 | the array branch removes the unwanted current elements, then adds every wanted one |
| InterfaceProvider.RemoveCommands | lib/puppet/provider/quagga_interface/quagga.rb:216-218 | one `no` command per element, in order |
| InterfaceProvider.AddCommands | lib/puppet/provider/quagga_interface/quagga.rb:220-222 | one command per element, in order |
| InterfaceProvider.Minus | lib/puppet/provider/quagga_interface/quagga.rb:216 | `Array#-` keeps exactly the elements of the first array that are not in the second |
| InterfaceProvider.Continue | lib/puppet/provider/quagga_interface/quagga.rb:207-229 | commands collected before a step are kept unless the step raises |
| InterfaceProvider.FlushRunRaises | lib/puppet/provider/quagga_interface/quagga.rb:215-222 | the loop raises exactly when some pending array value is not an array or meets no stored array |
| InterfaceProvider.FlushRunHash | lib/puppet/provider/quagga_interface/quagga.rb:228 | afterwards every pending key holds its pending value and every other key is as it was |
| InterfaceProvider.FlushRunLines | lib/puppet/provider/quagga_interface/quagga.rb:207-229 | when nothing raises, each key's commands are computed against the hash `prefetch` read |
| InterfaceProvider.ChangesElsewhere | lib/puppet/provider/quagga_interface/quagga.rb:207-229 | writing one key does not change the commands of the other keys |
| InterfaceProvider.ClearLines | lib/puppet/provider/quagga_interface/quagga.rb:208-209 | `:false` and `:absent` write `no` and the bare template, whatever the hash holds |
| InterfaceProvider.ClearExamples | lib/puppet/provider/quagga_interface/quagga.rb:208-209 | the clear commands are `no link-detect`, `no bandwidth` and `no description` |
| InterfaceProvider.RemoveLinesHas | lib/puppet/provider/quagga_interface/quagga.rb:216-218 | a removal line is written exactly for the elements removed, and no addition line |
| InterfaceProvider.AddLinesHas | lib/puppet/provider/quagga_interface/quagga.rb:220-222 | an addition line is written exactly for the elements added, and no removal line |
| InterfaceProvider.AddressChange | lib/puppet/provider/quagga_interface/quagga.rb:215-222 | changing the addresses removes exactly the current ones no longer wanted and adds every wanted one |
| InterfaceProvider.AddressChangeExample | lib/puppet/provider/quagga_interface/quagga.rb:215-222 | `[A, B]` to `[B, C]` writes `no ip address A`, `ip address B`, `ip address C` |
| InterfaceProvider.PrefetchRecords | lib/puppet/provider/quagga_interface/quagga.rb:115-122 | a resource gets a record exactly when one is named after it; that record carries its name and is the first one with it |
| Prefetch.FirstIndex | lib/puppet/provider/quagga_interface/quagga.rb:118 | `find` fails exactly when no record has the name; otherwise it gives the first record with it |
| Prefetch.Attach | lib/puppet/provider/quagga_interface/quagga.rb:117-121 | a resource gets a provider exactly when one is named after it, and the first such |
| Prefetch.Names | lib/puppet/provider/quagga_bgp_network/quagga.rb:35 | one name per record, in order, each that record's name |
| Prefetch.NamedIn | lib/puppet/provider/quagga_bgp_network/quagga.rb:35 | a name is among the records' names exactly when some record has it |
| Prefetch.PickedFirst | lib/puppet/provider/quagga_bgp_network/quagga.rb:35 | the record at a name's first index carries that name, and no earlier record does |
| Prefetch.Pick | lib/puppet/provider/quagga_interface/quagga.rb:117-121 | the same assignment for any kind of record and its name: a resource gets one exactly when a record has its name, and then the first record with it |
| Vtysh.Session | lib/puppet/provider/quagga_interface/quagga.rb:129-141 | a script is `configure terminal`, its body, `end` and `write memory` |
| Vtysh.Argv | lib/puppet/provider/quagga_interface/quagga.rb:143 | the argument vector puts `-c` before every command, in order |
| Vtysh.CommandsOfArgv | lib/puppet/provider/quagga_interface/quagga.rb:143 | the argument vector carries exactly the script, in order |
| Text.ToIOfDigits | lib/puppet/provider/quagga_interface/quagga.rb:90 | `to_i` of a numeral is the number it writes |
| Text.Unprefixed | lib/puppet/type/ospf_interface.rb:16 | `to_i`'s decimal prefix: `0d` or `0D` is dropped, and text whose second character is a digit is kept whole |
| Text.ToIRadixPrefix | lib/puppet/type/ospf_interface.rb:16 | `to_i` reads `0d12` as 12 |
| Text.ToIOfIntToString | lib/puppet/provider/quagga_interface/quagga.rb:90 | `to_i` reads back the decimal text of any integer |
| CommunityList.NextCommunity | lib/puppet/provider/quagga_bgp_community_list/quagga.rb:22 | a community read off the front is `\d+:\d+`, and the text after it does not continue its digits |
| CommunityList.Communities | lib/puppet/provider/quagga_bgp_community_list/quagga.rb:22-25 | a matching tail gives one or more communities, each `\d+:\d+` |
| CommunityList.ParseRule | lib/puppet/provider/quagga_bgp_community_list/quagga.rb:22-25 | a recognised line has a numeric name, the action `deny` or `permit` and one or more communities |
| CommunityList.Rules | lib/puppet/provider/quagga_bgp_community_list/quagga.rb:44-46 | each community gives one rule `"ACTION COMMUNITY"`, in order |
| CommunityList.Add | lib/puppet/provider/quagga_bgp_community_list/quagga.rb:28-48 | a line continues the current list when the names agree, and otherwise emits it and starts a present list of the line's name |
| CommunityList.Instances | lib/puppet/provider/quagga_bgp_community_list/quagga.rb:11-63 | the scanning loop returns exactly the specified lists |
| CommunityList.TakeRule | lib/puppet/provider/quagga_bgp_community_list/quagga.rb:28-48 | the branch for a recognised line, with `previous_name`, is the specified step |
| CommunityList.AppendRules | lib/puppet/provider/quagga_bgp_community_list/quagga.rb:44-46 | the loop appends one rule per community, in order |
| CommunityList.AddValid | lib/puppet/provider/quagga_bgp_community_list/quagga.rb:28-48 | the list a recognised line leaves is present, numerically named and holds one or more well-formed rules |
| CommunityList.ScanValid | lib/puppet/provider/quagga_bgp_community_list/quagga.rb:11-63 | every list the scan emits is present, numerically named and holds one or more well-formed rules |
| CommunityList.ParseValid | lib/puppet/provider/quagga_bgp_community_list/quagga.rb:11-63 | every parsed list is present, numerically named and holds one or more well-formed rules |
| CommunityList.ScanNeighbours | lib/puppet/provider/quagga_bgp_community_list/quagga.rb:28-48 | neighbouring lists the scan emits have different names, beginning with the open list's |
| CommunityList.ParseNeighbours | lib/puppet/provider/quagga_bgp_community_list/quagga.rb:28-48 | consecutive lines of one list are merged: neighbouring parsed lists have different names |
| CommunityList.CommunitiesOfJoin | lib/puppet/provider/quagga_bgp_community_list/quagga.rb:25 | communities written one blank apart are read back as written |
| CommunityList.ParseConfigLine | lib/puppet/provider/quagga_bgp_community_list/quagga.rb:22-25 | a written line is recognised with the name, action and communities it was written from |
| CommunityList.ReadCreateLine | lib/puppet/provider/quagga_bgp_community_list/quagga.rb:83-86 | the line `create` writes for a rule is recognised under the list's name and records that one rule |
| CommunityList.StepCreateLine | lib/puppet/provider/quagga_bgp_community_list/quagga.rb:28-48 | a line `create` writes joins the list being built, or starts it |
| CommunityList.ScanCreateLines | lib/puppet/provider/quagga_bgp_community_list/quagga.rb:28-48 | the remaining lines `create` writes complete the list being built |
| CommunityList.ParseCreateLines | lib/puppet/provider/quagga_bgp_community_list/quagga.rb:79-87 | the lines `create` writes for a list read back, through the scanner, as that same list |
| CommunityList.CreateLines | lib/puppet/provider/quagga_bgp_community_list/quagga.rb:82-87 | one `ip community-list NAME RULE` per rule, in order |
| CommunityList.Provider.FromRecord | lib/puppet/provider/quagga_bgp_community_list/quagga.rb:6-9 | a provider built from a parsed list holds its hash and exists exactly when the list is present |
| CommunityList.Provider.Unmatched | lib/puppet/provider/quagga_bgp_community_list/quagga.rb:6-9 | a provider with an empty hash does not exist and has no rules |
| CommunityList.Provider.Create | lib/puppet/provider/quagga_bgp_community_list/quagga.rb:74-94 | with rules, the script is the envelope around one `ip community-list` line per desired rule and the list then exists; without rules, `nil.each` raises and the hash is unchanged |
| CommunityList.Provider.Destroy | lib/puppet/provider/quagga_bgp_community_list/quagga.rb:96-111 | the script is `no ip community-list NAME` in the envelope, NAME from the hash; the hash is then cleared |
| CommunityList.Provider.SetRules | lib/puppet/provider/quagga_bgp_community_list/quagga.rb:121-126 | `rules=` sends the destroy script, then the create script unless the value is empty, and stores the value; when `create` raises, only the destroy script is sent and nothing is stored |
| CommunityList.PrefetchLists | lib/puppet/provider/quagga_bgp_community_list/quagga.rb:65-72 | a resource gets a list exactly when one has its name; that list carries the resource's name and is the first one with it |
| CommunityList.MultiRuleExample | lib/puppet/provider/quagga_bgp_community_list/quagga.rb:22-46 | `ip community-list 100 permit 10:10 20:20` is one list with one rule per community |
| BgpNetwork.RouterAs | lib/puppet/provider/quagga_bgp_network/quagga.rb:14 | a header's captured AS is a numeral |
| BgpNetwork.NetworkOf | lib/puppet/provider/quagga_bgp_network/quagga.rb:17 | a network line's capture is a non-empty run of `[\h\.\/:]` |
| BgpNetwork.TopLevelIsNotNetwork | lib/puppet/provider/quagga_bgp_network/quagga.rb:17-25 | a line that starts with a word character is not a network line |
| BgpNetwork.RouterAsOf | lib/puppet/provider/quagga_bgp_network/quagga.rb:14-16 | `router bgp AS` is read back as AS |
| BgpNetwork.NetworkOfLine | lib/puppet/provider/quagga_bgp_network/quagga.rb:17-19 | ` network P` is read back as P |
| BgpNetwork.Instances | lib/puppet/provider/quagga_bgp_network/quagga.rb:6-30 | the scanning loop returns exactly the specified records |
| BgpNetwork.StepHeader | lib/puppet/provider/quagga_bgp_network/quagga.rb:14-16 | a header sets the current AS and marks the block as found |
| BgpNetwork.StepNetwork | lib/puppet/provider/quagga_bgp_network/quagga.rb:17-24 | a network line emits one present record named `"AS P"` for the current AS |
| BgpNetwork.ExampleStop | lib/puppet/provider/quagga_bgp_network/quagga.rb:25-26 | after the block was found, another top-level line stops the scan |
| BgpNetwork.ExampleBlock | lib/puppet/provider/quagga_bgp_network/quagga.rb:6-30 | a block with an IPv4 and an IPv6 network gives both records, and nothing after the next top-level line |
| BgpNetwork.ScanRecords | lib/puppet/provider/quagga_bgp_network/quagga.rb:12-28 | every record the scan emits is present and its name splits into an AS and a prefix |
| BgpNetwork.ParseRecords | lib/puppet/provider/quagga_bgp_network/quagga.rb:6-30 | every parsed record is present and its name splits into an AS and a prefix |
| BgpNetwork.ScanLength | lib/puppet/provider/quagga_bgp_network/quagga.rb:12-28 | at most one record per line |
| BgpNetwork.Field | lib/puppet/provider/quagga_bgp_network/quagga.rb:45 | the first field is the longest prefix without white space |
| BgpNetwork.SplitNameOf | lib/puppet/provider/quagga_bgp_network/quagga.rb:45 | a name made of a field, a run of white space and a second field splits into the two fields, however long the run |
| BgpNetwork.SplitNameShape | lib/puppet/provider/quagga_bgp_network/quagga.rb:45 | conversely, a name that splits is its two fields with a run of white space between them |
| BgpNetwork.SplitScannedName | lib/puppet/provider/quagga_bgp_network/quagga.rb:20 | a name the scanner builds, `"AS P"`, splits back into AS and P |
| BgpNetwork.ExampleSplitIpv6 | spec/unit/type/quagga_bgp_network_spec.rb:57-59 | `65000   2a04:6d40::/48` splits into the AS and the prefix; the repeated blanks are one separator |
| BgpNetwork.ExampleCreateOneField | lib/puppet/provider/quagga_bgp_network/quagga.rb:45-50 | a name with one field has no network, so `create` raises |
| BgpNetwork.DestroyUndoesCreate | lib/puppet/provider/quagga_bgp_network/quagga.rb:48-78 | `destroy` enters the same block and negates the network line `create` wrote |
| BgpNetwork.ExampleCreateIpv6 | lib/puppet/provider/quagga_bgp_network/quagga.rb:50-54 | a prefix with a colon is announced with `ipv6 bgp network` |
| BgpNetwork.CreateReadBack | lib/puppet/provider/quagga_bgp_network/quagga.rb:41-63 | the IPv4 lines `create` writes, as the running configuration prints them, parse back into the record the resource names |
| BgpNetwork.Provider.FromRecord | lib/puppet/provider/quagga_bgp_network/quagga.rb:88-90 | a provider built from a parsed record exists exactly when the record is present |
| BgpNetwork.Provider.Unmatched | lib/puppet/provider/quagga_bgp_network/quagga.rb:88-90 | a provider with an empty hash does not exist |
| BgpNetwork.Provider.Create | lib/puppet/provider/quagga_bgp_network/quagga.rb:41-63 | a name that splits gives the envelope around `router bgp AS` and the network line, and the hash then names the resource and exists; a name that does not split raises and changes nothing |
| BgpNetwork.Provider.Destroy | lib/puppet/provider/quagga_bgp_network/quagga.rb:65-86 | a stored name that splits gives the envelope around `router bgp AS` and the negated network line, and the hash is cleared; an empty hash or a name that does not split raises and changes nothing |
| BgpNetwork.PrefetchRecords | lib/puppet/provider/quagga_bgp_network/quagga.rb:32-39 | a resource gets a record exactly when one is named after it; that record carries its name and is the first one with it |
| OspfInterface.AcceptAsWritten | lib/puppet/type/ospf_interface.rb:11-26 | as written, a value is accepted exactly when its `to_i` is in range, and is stored as that `to_i`; otherwise the range message is raised |
| OspfInterface.Accept | lib/puppet/type/ospf_interface.rb:11-26 | a refusal carries the pattern message for a non-numeral and the range message otherwise |
| OspfInterface.AcceptIff | lib/puppet/type/ospf_interface.rb:14-25 | a value is accepted exactly when it is a numeral in the property's range, and is stored as that number |
| OspfInterface.AcceptRefusesNonNumerals | lib/puppet/type/ospf_interface.rb:14 | signs, blanks and the empty string are refused |
| OspfInterface.AcceptNumeral | lib/puppet/type/ospf_interface.rb:87-98 | every number in range, written as a numeral, is accepted as itself |
| OspfInterface.AcceptStored | lib/puppet/type/ospf_interface.rb:23-25 | a stored number, written out again, is accepted as itself |
| OspfInterface.AcceptAgreesOnNumerals | lib/puppet/type/ospf_interface.rb:14-21 | on numerals, the corrected check is the check as written |
| OspfInterface.AcceptAsWrittenTrailingGarbage | lib/puppet/type/ospf_interface.rb:14-25 | as written, `12abc` is accepted as cost 12; the corrected check refuses it |
| OspfInterface.AcceptAsWrittenRadixPrefix | lib/puppet/type/ospf_interface.rb:14-25 | as written, `0d12` is accepted as cost 12; the corrected check refuses it |
| OspfInterface.AcceptAsWrittenEmpty | lib/puppet/type/ospf_interface.rb:87-98 | as written, an empty priority is accepted as 0; the corrected check refuses it |
| OspfInterface.AcceptMtuIgnore | lib/puppet/type/ospf_interface.rb:62-71 | mtu_ignore accepts exactly `true` and `false` and stores the value given |
| OspfInterface.MtuIgnoreStable | lib/puppet/type/ospf_interface.rb:65-70 | the default `false` is accepted, and a stored value is accepted as itself |
| OspfInterface.Underscore | lib/puppet/type/ospf_interface.rb:80 | every `-` becomes `_` and every other character is kept |
| OspfInterface.UnderscoreIdempotent | lib/puppet/type/ospf_interface.rb:80 | replacing hyphens a second time changes nothing |
| OspfInterface.AcceptNetworkType | lib/puppet/type/ospf_interface.rb:76-77 | network_type accepts exactly the four underscore spellings and the three hyphen spellings |
| OspfInterface.HyphenSpellings | lib/puppet/type/ospf_interface.rb:77-80 | each hyphen spelling is stored as its underscore spelling |
| OspfInterface.CanonicalUnchanged | lib/puppet/type/ospf_interface.rb:76-80 | the four canonical values are stored unchanged |
| OspfInterface.NetworkTypeCanonical | lib/puppet/type/ospf_interface.rb:76-81 | every accepted spelling is stored as one of the four canonical values, and a stored value is accepted again as itself |

## Left out

- The `vtysh` calls are external input and output. A scanner takes the configuration as its lines, already split on `\n`. A command builder returns the script it would send.
- `debug` logging is not modelled.
- InterfaceProvider.Provider.Create: uses the corrected guard of the link-detect finding (see "## Findings"), so for `link_detect => false` it writes no `link-detect`, where the code as written at lib/puppet/provider/quagga_interface/quagga.rb:134 writes one; `InterfaceProvider.CreateBodyAsWritten` and `InterfaceProvider.CreateLinkDetectAsWritten` model the code as written.
- The Puppet framework is not modelled: `newtype`/`provide`/`commands`, `ensurable`, the `name` parameter, `new(hash)` and the assignment of providers to resources.
  - `Prefetch.Attach`, `Prefetch.Pick` and the `PrefetchRecords`/`PrefetchLists` functions built on it give the assignment that `prefetch` makes.
  - The providers' `FromRecord`/`Unmatched` constructors give the provider a resource ends up with.
- ERB is not modelled as a template engine. Each template is a fixed function of an optional argument: `InterfaceSchema.Template`.
- `InterfaceProvider.ValueText`: `to_s` of an array value is a parameter, `renderList`. The shape of an array-valued resource value in `create` depends on framework code that is not part of this model.
- The `:symbol` branch of `flush` is not modelled (lib/puppet/provider/quagga_interface/quagga.rb:210-212). No property of the table has that type, so it cannot run.
- `InterfaceProvider.Validated`: the values Puppet lets a resource give each property are stated as an assumption. The `quagga_interface` type that enforces them is not part of this model.
- `Text.ToI`: Ruby's `to_i` also skips `_` between digits. The model does not, so `ToI` is exact only on text without underscores; every text the scanners hand to it is a run of digits. The `0d`/`0D` prefix after the sign is modelled.
- A Ruby exception is a `Result.Err` carrying a message:
  - the `NoMethodError` of `nil.split` and `nil.include?` in the BGP network provider;
  - the `NoMethodError` of `nil.each` in the community-list provider's `create`, for a resource without rules;
  - the `NoMethodError` of `Array#-` in `flush`;
  - `ArgumentError` and the framework's "Invalid value" error in `ospf_interface`.
  The messages stand for the exceptions; they are not the interpreter's exact text.
- `OspfInterface`:
  - a value is given by its `to_s` text, so the integer 12 and the string `"12"` are the same input;
  - `mtu_ignore` and `network_type` store symbols, here represented by their names.
- The interface record has no `:provider` key; the framework uses it to name the provider class.
- The interface provider's `@property_hash` is split into fields: name, ensure, enable and the property map.

## Findings

| source | as written | input that shows it | evidently intended | confidence | as-written member | corrected member |
|---|---|---|---|---|---|---|
| lib/puppet/provider/quagga_interface/quagga.rb:134 | `create` writes a property's template when `@resource[property]` is truthy and not `:absent`; the symbol `:false` is truthy | a resource with `link_detect => false` | `create` writes `link-detect` only for `link_detect => true`, as `flush` writes `no link-detect` for `:false` | not executed | InterfaceProvider.CreateLinkDetectAsWritten | InterfaceProvider.CreateLinkDetect |
| lib/puppet/type/ospf_interface.rb:14-21 | a `validate` block takes the place of the check against `newvalues(/\A\d+\Z/)`, so only the range of `value.to_i` is checked | cost `12abc` or `0d12` (accepted as 12); priority `""` (accepted as 0) | only numerals in range are accepted | not executed | OspfInterface.AcceptAsWrittenTrailingGarbage | OspfInterface.AcceptIff |
