# ZooKeeper service discovery: the provider table

This project models the provider table at the centre of jrpc's ZooKeeper-backed
service discovery (`ZookeeperServiceDiscovery`). The table maps a key
`serviceName + "-" + group` to the provider that watches that service group's
registered instances.

- `listen` checks its arguments and then adds a started provider for the key, unless the key already has one.
- `cancel` removes and closes the key's provider.
- `destroy` closes every provider, empties the table and closes the connection.
- `discovery` reads the key's provider and describes each of its instances. It splits the
  instance's combined name at the first `-` into a name and a group.

The files:

- `wrappers.dfy` (module `Wrappers`): `Option` stands for a Java reference that may be null.
  `Result` and `Outcome` stand for a call that may raise.
- `service_keys.dfy` (module `ServiceKeys`): the key join (`KeyOf`) and the first-`-` split
  (`SplitNameGroup`), with the round-trip property and its limits.
- `zookeeper_service_discovery.dfy` (module `ZookeeperDiscovery`): the Curator provider as the
  class `Provider` (a service name, a started flag, a closed flag and an instance list), and the
  discovery as the class `ZookeeperServiceDiscovery`.
  - Its `providers` field is a `map<string, Provider>` that the methods reassign.
  - `Valid()` says every provider in the table is started, not closed, watches the service named
    by its key, and belongs to exactly one key.
  - The Java constructor, which can throw, is the method `Open`. It checks the configuration and
    then runs the class constructor. That constructor models the field initialiser (an empty table)
    and, by setting `backendOpen`, the start-up of the ZooKeeper client and the Curator discovery.

Java string concatenation renders a null argument as `"null"`, and `cancel` and `discovery` do not
check their arguments. The model keeps this: `KeyOf(None, g)` equals `KeyOf(Some("null"), g)`.

The join is not injective. `("a-b", "c")` and `("a", "b-c")` both give the key `"a-b-c"`, so they
share one provider, and the split returns `("a", "b-c")` for both. `KeyCollision` proves this in
general and `SharedKeyScenario` walks through it. `SplitJoin` proves that the split returns the
original pair exactly when the name has no `-`.

The code keys the table by the joined string and does not guard calls made after `destroy`; the
model follows the code.

## Model

| member | source | states |
|---|---|---|
| `ServiceKeys.Text` | jrpc-zookeeper/src/main/java/com/dinstone/jrpc/srd/zookeeper/ZookeeperServiceDiscovery.java:125 | Java's rendering of a possibly-null string inside a concatenation: the string itself, or `"null"` for null; no contract of its own, its effect on keys is proved by `NullKeyCollision` |
| `ServiceKeys.KeyOf` | jrpc-zookeeper/src/main/java/com/dinstone/jrpc/srd/zookeeper/ZookeeperServiceDiscovery.java:112 | the table key `serviceName + "-" + group`; no contract of its own, its properties are proved by `SplitJoin` (the round trip), `KeyDeterminesDashFreePair` (injective on names without `-`), `KeyCollision` and `NullKeyCollision` (where it is not injective) |
| `ServiceKeys.FirstSeparator` | jrpc-zookeeper/src/main/java/com/dinstone/jrpc/srd/zookeeper/ZookeeperServiceDiscovery.java:82 | the split point is the first `-`: no `-` before it, a `-` at it, and it is the length exactly when the string has no `-` |
| `ServiceKeys.SplitNameGroup` | jrpc-zookeeper/src/main/java/com/dinstone/jrpc/srd/zookeeper/ZookeeperServiceDiscovery.java:82-89 | the name part never contains `-`; with a `-`, name + `-` + group rebuilds the input; without one, the whole string is the name and the group is `""` |
| `ServiceKeys.SplitJoin` | jrpc-zookeeper/src/main/java/com/dinstone/jrpc/srd/zookeeper/ZookeeperServiceDiscovery.java:75-89 | splitting `name + "-" + group` gives back `(name, group)` if and only if `name` has no `-` |
| `ServiceKeys.KeyDeterminesDashFreePair` | jrpc-zookeeper/src/main/java/com/dinstone/jrpc/srd/zookeeper/ZookeeperServiceDiscovery.java:112 | among pairs whose names have no `-`, equal keys mean equal pairs |
| `ServiceKeys.KeyCollision` | jrpc-zookeeper/src/main/java/com/dinstone/jrpc/srd/zookeeper/ZookeeperServiceDiscovery.java:112-118 | `(n + "-" + m, g)` and `(n, m + "-" + g)` have the same key, so they share one provider |
| `ServiceKeys.NullKeyCollision` | jrpc-zookeeper/src/main/java/com/dinstone/jrpc/srd/zookeeper/ZookeeperServiceDiscovery.java:124-125 | a null name or group gives the same key as the string `"null"` |
| `ZookeeperDiscovery.ConfigError` | jrpc-zookeeper/src/main/java/com/dinstone/jrpc/srd/zookeeper/ZookeeperServiceDiscovery.java:46-55 | construction fails if and only if the node list or the base path is null or empty; the node list is checked first, each with its own message |
| `ZookeeperDiscovery.ListenArgumentError` | jrpc-zookeeper/src/main/java/com/dinstone/jrpc/srd/zookeeper/ZookeeperServiceDiscovery.java:104-110 | listen fails if and only if the service name is null or empty or the group is null; the name is checked first |
| `ZookeeperDiscovery.Describe` | jrpc-zookeeper/src/main/java/com/dinstone/jrpc/srd/zookeeper/ZookeeperServiceDiscovery.java:80-93 | the description of one instance copies its id, host, port, registration time and payload and splits its combined name at the first `-` (stated as `DescribesInstances([d], [instance])`); `Discovery` applies it to every instance in order |
| `ZookeeperDiscovery.DescribeRecoversPair` | jrpc-zookeeper/src/main/java/com/dinstone/jrpc/srd/zookeeper/ZookeeperServiceDiscovery.java:82-89 | an instance registered under the key of `(name, group)`, with no `-` in `name`, is described with that name and group |
| `ZookeeperDiscovery.Provider.constructor` | jrpc-zookeeper/src/main/java/com/dinstone/jrpc/srd/zookeeper/ZookeeperServiceDiscovery.java:115-116 | a built provider watches the given service name and is neither started nor closed |
| `ZookeeperDiscovery.Provider.Start` | jrpc-zookeeper/src/main/java/com/dinstone/jrpc/srd/zookeeper/ZookeeperServiceDiscovery.java:117 | a started provider holds the instances the coordination service has registered and is not closed |
| `ZookeeperDiscovery.Provider.Close` | jrpc-zookeeper/src/main/java/com/dinstone/jrpc/srd/zookeeper/ZookeeperServiceDiscovery.java:130 | closing always succeeds and changes nothing but the closed flag |
| `ZookeeperDiscovery.ZookeeperServiceDiscovery.constructor` | jrpc-zookeeper/src/main/java/com/dinstone/jrpc/srd/zookeeper/ZookeeperServiceDiscovery.java:44-65 | the field initialiser gives an empty, valid table; the open connection stands for starting the ZooKeeper client and the Curator discovery |
| `ZookeeperDiscovery.ZookeeperServiceDiscovery.Discovery` | jrpc-zookeeper/src/main/java/com/dinstone/jrpc/srd/zookeeper/ZookeeperServiceDiscovery.java:72-99 | an unwatched key gives an empty list and no error; a watched key gives one description per instance in order, copying id, host, port, registration time and payload, with name and group split from the combined name; it changes nothing |
| `ZookeeperDiscovery.ZookeeperServiceDiscovery.Listen` | jrpc-zookeeper/src/main/java/com/dinstone/jrpc/srd/zookeeper/ZookeeperServiceDiscovery.java:104-121 | on an argument error the table is unchanged; otherwise the key is in the table afterwards, a key already present leaves the table and its provider unchanged, and a new key gets a fresh started provider while every other entry stays; the table stays valid |
| `ZookeeperDiscovery.ZookeeperServiceDiscovery.Cancel` | jrpc-zookeeper/src/main/java/com/dinstone/jrpc/srd/zookeeper/ZookeeperServiceDiscovery.java:124-135 | removes exactly the key, closes its provider, touches no other provider, and does nothing for an absent key; the table stays valid |
| `ZookeeperDiscovery.ZookeeperServiceDiscovery.Destroy` | jrpc-zookeeper/src/main/java/com/dinstone/jrpc/srd/zookeeper/ZookeeperServiceDiscovery.java:138-155 | every provider that was in the table is closed, the table is empty and the connection is closed |
| `ZookeeperDiscovery.Open` | jrpc-zookeeper/src/main/java/com/dinstone/jrpc/srd/zookeeper/ZookeeperServiceDiscovery.java:46-69 | fails with the configuration's argument error exactly when there is one; otherwise yields a fresh discovery with an empty table |
| `ZookeeperDiscovery.ListenThenCancel` | jrpc-zookeeper/src/main/java/com/dinstone/jrpc/srd/zookeeper/ZookeeperServiceDiscovery.java:112-133 | cancel after a listen of an unwatched key restores the table; when the arguments are accepted, the provider the listen created is fresh and ends up closed |
| `ZookeeperDiscovery.SharedKeyScenario` | jrpc-zookeeper/src/main/java/com/dinstone/jrpc/srd/zookeeper/ZookeeperServiceDiscovery.java:75-96 | after listening to `("a-b", "c")` and `("a", "b-c")` the table holds one provider, and discovery of `("a", "b-c")` describes the first pair's instance as name `"a"`, group `"b-c"` |

## Left out

- Creating the ZooKeeper client and the Curator discovery, starting them, the retry policy (base sleep time, maximum retries) and the JSON serializer: these are foreign library calls and network I/O. `Open` only checks the configuration and records an open connection.
- The coordination service's asynchronous updates to a provider's instance cache are not modelled. A provider's instances are set once, by `Provider.Start`, from a parameter that stands for what the service has registered.
- The `synchronized (providers)` blocks: each operation is one atomic sequential step, so no interleaving is modelled.
- `IOException`s swallowed on close: closing always succeeds.
- Exceptions that Curator itself may raise from building, starting or reading a provider are not modelled.
- `ServiceAttribute` is not part of this model: the payload is an opaque string map that is copied unchanged.
- Calls after `destroy`: what the closed Curator objects would do is not visible, so the model does not guard them beyond recording the closed connection.
