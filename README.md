# OpenVR-AdvancedSettings core, modelled in Dafny

This project models the core of OpenVR-AdvancedSettings, a SteamVR
dashboard overlay, and proves properties of that model. It covers these
parts:

- **Playspace boundary synchronisation** (`BoundrySync.cpp`,
  `DiscoveryProtocol.h`).
  - The 12-byte UDP discovery packet, protected by an FNV-1a checksum.
  - The broadcaster's start/stop/target state.
  - The 104-byte boundary frame received over TCP.
  - The ordered chaperone-setup calls that `ProcessData` issues for a
    frame.
- **Distance engine** (`ChaperoneUtils.h/.cpp`).
  - Loads the collision-bounds quads and checks them for continuity.
  - Computes, for a point, the nearest point on every wall and the
    wall distance.
  - Picks the nearest wall with the code's own `min_element`
    comparator.
- **Math helpers.**
  - `reduceAngle`/`circularIndex` (`RotationTabController.h`).
  - The rotation matrices and the three `matMul33` products
    (`Matrix.h`).
  - Quaternion `multiply`/`conjugate`/`fromHmdMatrix34`/`getRoll`
    (`quaternion.h`).
- **Settings persistence.**
  - The typed FIFO `SettingsObjectData`.
  - Its array serialisation into a `QSettings` store
    (`settings_object.cpp`).
  - The chaperone profile's `saveSettings`/`loadSettings`
    (`ChaperoneTabController.h`).
  - The category/setting helpers (`settings_internal.h`).
  - The three setting-value classes.
- **OpenVR wrappers.**
  - `ovr_settings_wrapper.cpp`: error handling, including the sticky
    "unset setting" flag.
  - `ovr_system_wrapper.cpp`: device names, connected devices and
    controller name.
- **SteamVR tab** (`SteamVRTabController.cpp`).
  - Parsing and counting of the dongle list.
  - Device-info gathering and the receiver/transmitter list built by
    `searchRXTX`.
  - The change-guarded toggles.
  - The binding file-name scheme and the app-id extraction of
    `applyAllCustomBindings`.

## Modelling conventions

- **Collaborators become inputs.** OpenVR runtime queries are a
  `Runtime` value of query functions, or explicit parameters. Calls
  that change the runtime are appended to a call log that the proofs
  inspect.
- **Qt.** Qt's `QSettings` and `QVariant` are not repository code, but
  the persistence code cannot be stated without them. The
  `SettingsStore` module models them:
  - a map from key paths to typed values;
  - a stack of open groups and arrays, with Qt's `size` bookkeeping
    for arrays.
- **Numbers.**
  - Floating point is modelled with `real`.
  - `sqrt` and `asin` are function parameters, constrained only by the
    predicates the proofs need.
  - Wall distances are kept squared. `sqrt` is monotone, so every
    comparison and tie the code makes is preserved.
  - A zero-length wall, which produces NaN in the code, is a separate
    `NaN` distance.
- **Integer widths.** Explicit where they matter: `uint32` quad counts
  and their casts to and from `int`, and `size_t` wrap-around in
  `circularIndex`.
- **`min_element` and NaN.**
  - `getDistanceToChaperone` ranks with the comparator
    `isnan(a) || a < b`.
  - The model follows that code: a NaN distance is ranked lowest, so
    the last NaN wins (`ChaperoneUtils.MinElementLastNaN`).
  - A NaN distance is therefore selected whenever one is present.

## Model

| member | source | states |
|---|---|---|
| Common.CyclicSuccessor | src/utils/ChaperoneUtils.cpp:14 | the successor index `(i + 1) % n` stays below `n` |
| DiscoveryProtocol.CalculateChecksum | src/tabcontrollers/DiscoveryProtocol.h:27-38 | the byte loop computes exactly the FNV-1a hash of the first 8 packet bytes |
| DiscoveryProtocol.FnvFoldSnoc | src/tabcontrollers/DiscoveryProtocol.h:33-36 | folding one more byte is one more FNV step on the folded hash |
| DiscoveryProtocol.Fnv1a | src/tabcontrollers/DiscoveryProtocol.h:27-38 | FNV-1a from the offset basis, one xor-and-multiply step per byte in order; `Fnv1aIsFold` and `Fnv1aIncremental` state it as a fold |
| DiscoveryProtocol.Fnv1aIsFold | src/tabcontrollers/DiscoveryProtocol.h:30-37 | FNV-1a is the left fold of the FNV step from the offset basis |
| DiscoveryProtocol.Fnv1aIncremental | src/tabcontrollers/DiscoveryProtocol.h:33-36 | the hash of `data + [b]` is one FNV step after the hash of `data` |
| DiscoveryProtocol.BigEndian16RoundTrip | src/tabcontrollers/BoundrySync.cpp:113-114 | `htons` byte order is read back to the same 16-bit value |
| DiscoveryProtocol.BigEndian32RoundTrip | src/tabcontrollers/BoundrySync.cpp:112-116 | `htonl` byte order is read back to the same 32-bit value |
| DiscoveryProtocol.PacketHeader | src/tabcontrollers/DiscoveryProtocol.h:16-23 | the checksummed part of the packet is 8 bytes long |
| DiscoveryProtocol.EncodePacket | src/tabcontrollers/BoundrySync.cpp:110-116 | the packet is 12 bytes: big-endian magic, version and TCP port, then the big-endian checksum of the first 8 bytes |
| DiscoveryProtocol.DecodePacket | src/tabcontrollers/DiscoveryProtocol.h:16-38 | a packet is accepted only when it is 12 bytes long and its checksum field matches FNV-1a of its first 8 bytes |
| DiscoveryProtocol.DecodeEncode | src/tabcontrollers/BoundrySync.cpp:110-116 | decoding a built packet returns the advertised TCP port |
| DiscoveryProtocol.DecodeRejectsBadChecksum | src/tabcontrollers/DiscoveryProtocol.h:27-38 | any wrong checksum makes the packet rejected |
| DiscoveryProtocol.MagicIsAsciiDis | src/tabcontrollers/DiscoveryProtocol.h:12 | the magic constant reads as the bytes `_DIS` on the wire |
| BoundarySync.TransformByIdentity | src/tabcontrollers/BoundrySync.cpp:169-175 | `TransformPoint` under the identity pose is the point itself |
| BoundarySync.TransformPoint | src/tabcontrollers/BoundrySync.cpp:169-175 | applies the 3×4 pose to a point; `TransformByIdentity` and `TransformByTranslation` state its meaning |
| BoundarySync.TransformByTranslation | src/tabcontrollers/BoundrySync.cpp:169-175 | under a pure translation `TransformPoint` adds the translation column |
| BoundarySync.DistSquaredSymmetric | src/tabcontrollers/BoundrySync.cpp:178-180 | `Dist` is symmetric and ignores height |
| BoundarySync.WorldCorners | src/tabcontrollers/BoundrySync.cpp:279-288 | a frame yields exactly four world corners |
| BoundarySync.SyncedQuads | src/tabcontrollers/BoundrySync.cpp:293-310 | one wall quad per corner |
| BoundarySync.SyncedWallsAreVertical | src/tabcontrollers/BoundrySync.cpp:296-309 | each synced wall has two floor vertices at height 0 and two top vertices at the wall height, vertically above each other |
| BoundarySync.SentinelOnlyReverts | src/tabcontrollers/BoundrySync.cpp:264-269 | a sentinel frame only reverts the working copy and requests reset data; nothing is committed and no head pose is read |
| BoundarySync.ProcessCalls | src/tabcontrollers/BoundrySync.cpp:263-328 | 2 calls for a sentinel frame, 1 without a valid head pose, 8 otherwise; the working copy is committed exactly for a real frame with a valid pose |
| BoundarySync.InvalidPoseChangesNothing | src/tabcontrollers/BoundrySync.cpp:271-274 | without a valid head pose the only call is the pose query |
| BoundarySync.CommittedGeometry | src/tabcontrollers/BoundrySync.cpp:271-327 | a real frame issues eight calls in order (revert, set four quads, commit live, …); quad `i` starts on the floor under the transformed corner `i`, its last vertex is that corner at wall height, and its second vertex is the next quad's first |
| BoundarySync.FrameSizeIs104 | src/tabcontrollers/BoundrySync.cpp:155-163 | the received frame is 104 bytes |
| BoundarySync.RecvActionFor | src/tabcontrollers/BoundrySync.cpp:232-241 | `recv` ≤ 0 disconnects, exactly 104 bytes are processed, anything else is ignored |
| BoundarySync.ShortReadsIgnored | src/tabcontrollers/BoundrySync.cpp:230-241 | a session of short reads issues no chaperone call |
| BoundarySync.ChaperoneSyncClient.constructor | src/tabcontrollers/BoundrySync.cpp:218-225 | a new client has issued no calls |
| BoundarySync.ChaperoneSyncClient.ProcessData | src/tabcontrollers/BoundrySync.cpp:263-328 | appends exactly the calls `ProcessCalls` specifies for the frame and head pose |
| BoundarySync.ChaperoneSyncClient.Run | src/tabcontrollers/BoundrySync.cpp:220-243 | serves received frames up to the first `recv` ≤ 0, issuing the calls of each full frame in order |
| BoundarySync.RoundDatagrams | src/tabcontrollers/BoundrySync.cpp:124-145 | each round broadcasts the packet, and sends a second copy to `Unicast(targetIP)` exactly when the target IP is non-empty and parses; all datagrams go to the UDP port and carry the encoded TCP port |
| BoundarySync.ServerAdvertisesItsPort | src/tabcontrollers/BoundrySync.cpp:260 | the broadcaster built with port 1191 sends on the discovery port a packet that decodes to 1191 |
| BoundarySync.DiscoveryBroadcaster.constructor | src/tabcontrollers/BoundrySync.cpp:51-53 | stores both ports; not running, no socket, empty target |
| BoundarySync.DiscoveryBroadcaster.Start | src/tabcontrollers/BoundrySync.cpp:59-81 | returns true when already running or when the socket is created and broadcast enabled; a failed setsockopt closes the socket; a running broadcaster is unchanged |
| BoundarySync.DiscoveryBroadcaster.Stop | src/tabcontrollers/BoundrySync.cpp:83-96 | afterwards it is not running; if it was running, the socket is released and the worker joined; otherwise nothing changes |
| BoundarySync.DiscoveryBroadcaster.SetTargetIP | src/tabcontrollers/BoundrySync.cpp:98-106 | sets the target and nothing else |
| BoundarySync.DiscoveryBroadcaster.NextRound | src/tabcontrollers/BoundrySync.cpp:136-144 | the round of the broadcaster's own ports and target: the broadcast, plus a copy to the target exactly when it is non-empty and parses |
| BoundarySync.RunCalls | src/tabcontrollers/BoundrySync.cpp:59-106 | any sequence of start, stop and set-target calls, whatever the socket calls return, keeps at most one worker; one ending in stop leaves it stopped with no live worker |
| SyncReload.SyncedBoundaryReloadsMalformed | src/tabcontrollers/BoundrySync.cpp:304-307 | the quads as written never pass the continuity test of `loadChaperoneData` |
| SyncReload.ReloadAfterSync | src/utils/ChaperoneUtils.cpp:104-118 | reloading after a sync with the quads as written marks the chaperone not well-formed |
| SyncReload.CorrectedWallQuad | src/tabcontrollers/BoundrySync.cpp:304-307 | the corrected wall starts and ends on the floor |
| SyncReload.CorrectedWallSameVertices | src/tabcontrollers/BoundrySync.cpp:304-307 | the corrected wall has the same four vertices as the original, in a different order |
| SyncReload.CorrectedSyncReloadsWellFormed | src/utils/ChaperoneUtils.cpp:104-118 | the corrected quads always pass the continuity test |
| SyncReload.CorrectedReloadRecoversCorners | src/utils/ChaperoneUtils.cpp:104-106 | reloading the corrected quads gives back exactly the synced world corners |
| SyncReload.ReloadAfterCorrectedSync | src/utils/ChaperoneUtils.cpp:74-120 | after a corrected sync the engine is still well-formed and holds the four world corners |
| ChaperoneUtils.WallSample | src/utils/ChaperoneUtils.cpp:14-68 | keeps both wall corners; the nearest point is at the point's height; the distance is the planar distance to it; the distance is NaN exactly when there is no nearest point |
| ChaperoneUtils.Samples | src/utils/ChaperoneUtils.cpp:11-16 | one sample per wall, wall `i` running from corner `i` to corner `(i+1) % n` |
| ChaperoneUtils.NaNIffZeroLength | src/utils/ChaperoneUtils.cpp:17-21 | the distance is NaN exactly when the wall has zero planar length |
| ChaperoneUtils.SampleIsNearestOnWall | src/utils/ChaperoneUtils.cpp:26-62 | on a wall of non-zero length the sampled distance is at most the distance to any point on the wall |
| ChaperoneUtils.NearestPointOnWall | src/utils/ChaperoneUtils.cpp:28-56 | the nearest point lies on the wall segment |
| ChaperoneUtils.StartIsNearest | src/utils/ChaperoneUtils.cpp:28-52 | when the projection falls before the wall's start, the first corner is no farther than any point of the wall |
| ChaperoneUtils.EndIsNearest | src/utils/ChaperoneUtils.cpp:28-52 | when the projection falls past the wall's end, the second corner is no farther than any point of the wall |
| ChaperoneUtils.ProjectionIsNearest | src/utils/ChaperoneUtils.cpp:53-62 | the projected point is no farther than any point of the wall's line |
| ChaperoneUtils.SamplesOfPrefix | src/utils/ChaperoneUtils.cpp:12-69 | samples built one per wall up to `n` are the samples of the first `n` corners |
| ChaperoneUtils.EqualEndDistancesAtMidpoint | src/utils/ChaperoneUtils.cpp:40-51 | equal distances to both ends put the projection at exactly 0.5, so the endpoint tie (projection outside the wall, `d1 == d2`) cannot happen over the reals |
| ChaperoneUtils.ClosestCorner | src/utils/ChaperoneUtils.h:20-28 | returns a corner of the wall that is no farther than the other; on a tie it returns the second corner |
| ChaperoneUtils.MinElement | src/utils/ChaperoneUtils.h:87-94 | the selected index is in range |
| ChaperoneUtils.MinElementFirstMinimum | src/utils/ChaperoneUtils.h:87-94 | without NaNs, `min_element` returns the first smallest distance |
| ChaperoneUtils.MinElementLastNaN | src/utils/ChaperoneUtils.h:87-94 | with a NaN present, the selection is a NaN with no NaN after it |
| ChaperoneUtils.NearestSample | src/utils/ChaperoneUtils.h:76-95 | nothing is found only for an empty wall list; otherwise the result is one of the samples |
| ChaperoneUtils.NearestSampleIsFirstMinimum | src/utils/ChaperoneUtils.h:76-95 | without NaNs, the result is the first sample of minimal distance |
| ChaperoneUtils.FirstCorners | src/utils/ChaperoneUtils.cpp:104-106 | the stored corners are the first vertex of each quad |
| ChaperoneUtils.ChaperoneEngine.constructor | src/utils/ChaperoneUtils.h:35-37 | no quads, well-formed, nothing read |
| ChaperoneUtils.ChaperoneEngine.LoadChaperoneData | src/utils/ChaperoneUtils.cpp:74-120 | reads the chosen bounds; stores the count; for a non-empty list, stores the first corners and clears the well-formed flag unless every quad joins the next with its first vertex on the floor; an empty list leaves the corners and flag alone |
| ChaperoneUtils.ChaperoneEngine.GetDistancesInternal | src/utils/ChaperoneUtils.cpp:8-72 | the loop builds exactly the wall samples of the loaded corners |
| ChaperoneUtils.ChaperoneEngine.GetDistancesToChaperone | src/utils/ChaperoneUtils.h:63-74 | one sample per wall, the same with or without locking |
| ChaperoneUtils.ChaperoneEngine.GetDistanceToChaperone | src/utils/ChaperoneUtils.h:76-95 | returns the `min_element` choice among the samples; nothing when no quads are loaded |
| Rotation.ReduceAngle | src/tabcontrollers/RotationTabController.h:189-202 | the result lies in `[min, max)` and differs from the angle by a whole number of periods; an angle already in range is returned unchanged |
| Rotation.Archimedes | src/tabcontrollers/RotationTabController.h:192-201 | some whole number of periods exceeds any angle, so both loops end |
| Rotation.CircularIndex | src/tabcontrollers/RotationTabController.h:206-212 | steps forward modulo the size, or back with wrap to the last index; stepping back from 0 with size 0 wraps to `SIZE_MAX` |
| Rotation.IncrementIsCyclicSuccessor | src/tabcontrollers/RotationTabController.h:206-212 | stepping forward is the cyclic successor |
| Rotation.CircularIndexInBounds | src/tabcontrollers/RotationTabController.h:206-212 | an index in range stays in range in both directions |
| Rotation.CircularIndexSteps | src/tabcontrollers/RotationTabController.h:206-212 | a step forward and a step back cancel, in either order |
| Matrix.Entries | src/utils/Matrix.h:22-24 | reads a 3×4 matrix entry by entry |
| Matrix.MatMul | src/utils/Matrix.h:76-92 | the 3×3 block is the row-by-column product; the translation column of `result` keeps its prior value |
| Matrix.Transpose | src/utils/Matrix.h:109-122 | swaps rows and columns of the rotation block |
| Matrix.RotationStructure | src/utils/Matrix.h:28-69 | the rotation about each axis fixes that axis, places cos and ±sin as the code does, and has a zero translation |
| Matrix.RotationMatrix | src/utils/Matrix.h:28-69 | the rotation written for each axis; `RotationStructure`, `RotationsCompose` and `RotationIsOrthogonal` state its properties |
| Matrix.ZeroRotationIsIdentity | src/utils/Matrix.h:28-69 | the zero angle gives the identity for every axis |
| Matrix.ForwardUpIsQuarterTurnAboutX | src/utils/Matrix.h:10-13 | `k_forwardUpMatrix` is the −90° rotation about X |
| Matrix.IdentityIsNeutral | src/utils/Matrix.h:76-92 | multiplying by the identity on either side changes nothing |
| Matrix.RotationsCompose | src/utils/Matrix.h:28-92 | composing two rotations about the same axis adds their angles (cos/sin addition formulas) |
| Matrix.RotationIsOrthogonal | src/utils/Matrix.h:28-92 | for a unit (cos, sin), the transpose is the opposite rotation and multiplying by it gives the identity |
| Matrix.TransposeReversesAngle | src/utils/Matrix.h:28-69 | the transpose of a rotation negates its sine |
| Matrix.VecTimesMatIsTransposed | src/utils/Matrix.h:94-122 | vector×matrix equals transposed-matrix×vector |
| Matrix.ProductActsInOrder | src/utils/Matrix.h:76-107 | applying a product to a vector applies the right factor first |
| Matrix.InitRotationMatrix | src/utils/Matrix.h:22-74 | writes the rotation for the axis into the array; an unknown axis leaves it unchanged |
| Matrix.MatMul33 | src/utils/Matrix.h:76-92 | the nested loops leave `result` equal to the matrix product, translation column untouched |
| Matrix.AccumulateEntry | src/utils/Matrix.h:84-88 | zeroing and accumulating sets one entry to its row·column sum and changes nothing else |
| Matrix.MatTimesVec33 | src/utils/Matrix.h:94-107 | `result` becomes matrix×vector |
| Matrix.AccumulateRowTimesVec | src/utils/Matrix.h:100-104 | one component becomes its row·vector sum; the others are unchanged |
| Matrix.VecTimesMat33 | src/utils/Matrix.h:109-122 | `result` becomes vector×matrix |
| Matrix.AccumulateVecTimesColumn | src/utils/Matrix.h:115-119 | one component becomes its vector·column sum; the others are unchanged |
| Quaternion.Conjugate | src/quaternion/quaternion.h:54-62 | keeps `w` and negates the vector part |
| Quaternion.Multiply | src/quaternion/quaternion.h:41-52 | the Hamilton product; `IdentityIsNeutral`, `ConjugateOfProduct`, `ProductWithConjugate` and `UnitConjugateIsInverse` state its laws |
| Quaternion.ConjugateInvolution | src/quaternion/quaternion.h:54-62 | conjugating twice gives the original |
| Quaternion.IdentityIsNeutral | src/quaternion/quaternion.h:41-52 | the identity quaternion is neutral on both sides of `multiply` |
| Quaternion.ConjugateOfProduct | src/quaternion/quaternion.h:41-62 | the conjugate of a product is the product of the conjugates in reverse order |
| Quaternion.ProductWithConjugate | src/quaternion/quaternion.h:41-62 | a quaternion times its conjugate, on either side, is its squared norm |
| Quaternion.UnitConjugateIsInverse | src/quaternion/quaternion.h:41-62 | for a unit quaternion the conjugate is the inverse |
| Quaternion.Max0 | src/quaternion/quaternion.h:13 | `fmax(0, v)` is non-negative, at least `v`, and either `v` or 0 |
| Quaternion.CopySign | src/quaternion/quaternion.h:32-37 | the magnitude of the first argument with the sign of the second, a zero sign counting as positive |
| Quaternion.HalfRoot | src/quaternion/quaternion.h:12-31 | each half root is non-negative |
| Quaternion.FromHmdMatrix34 | src/quaternion/quaternion.h:8-39 | `w` is non-negative and each vector component has the sign of its antisymmetric matrix difference |
| Quaternion.SquareW | src/quaternion/quaternion.h:12-16 | `w²` is a quarter of the clamped trace term |
| Quaternion.SquareX | src/quaternion/quaternion.h:17-33 | `x²` is a quarter of its clamped diagonal term, whatever sign is copied |
| Quaternion.SquareY | src/quaternion/quaternion.h:22-35 | likewise for `y` |
| Quaternion.SquareZ | src/quaternion/quaternion.h:27-37 | likewise for `z` |
| Quaternion.FromRotationIsUnit | src/quaternion/quaternion.h:8-39 | when no diagonal term is clamped, the result is a unit quaternion |
| Quaternion.GetRoll | src/quaternion/quaternion.h:86-100 | `±π/2` when \|sinp\| ≥ 1, with the sign of sinp; otherwise `asin(sinp)` |
| Quaternion.RollInRange | src/quaternion/quaternion.h:86-100 | the roll always lies in `[−π/2, π/2]` |
| Quaternion.IdentityRoll | src/quaternion/quaternion.h:86-100 | the identity quaternion has roll `asin(0)` |
| SettingsStore.Convert | src/settings/settings_object.cpp:87-104 | a conversion yields the requested type; a stored value of that type is returned as is, anything else as the type's default |
| SettingsStore.DefaultOf | src/settings/settings_object.cpp:87-104 | the default value has the requested type |
| SettingsStore.NatToDecimal | src/settings/settings_object.cpp:151 | `std::to_string` of a natural number is a non-empty digit string |
| SettingsStore.IntToDecimal | src/settings/settings_object.cpp:151 | a negative number prints as `-` followed by its magnitude |
| SettingsStore.ParseNatToDecimal | src/settings/settings_object.cpp:151 | the printed digits read back as the number |
| SettingsStore.NatToDecimalInjective | src/settings/settings_object.cpp:151 | different numbers print differently |
| SettingsStore.IntToDecimalInjective | src/settings/settings_object.cpp:151 | different integers, signed, print differently |
| SettingsStore.PrefixPush | src/settings/internal/settings_internal.h:70-74 | opening a group extends the key prefix by that group's path |
| SettingsStore.RemoveTree | src/settings/settings_object.cpp:42 | removes exactly the keys under a prefix and keeps the rest |
| SettingsStore.Store.constructor | src/settings/settings_object.cpp:39 | a store with the given entries and no open group |
| SettingsStore.Store.Value | src/settings/internal/settings_internal.h:72 | a lookup is never a null variant, and holds a value exactly when the key path is stored |
| SettingsStore.Store.BeginGroup | src/settings/internal/settings_internal.h:70 | pushes a group; entries unchanged |
| SettingsStore.Store.EndGroup | src/settings/internal/settings_internal.h:74 | pops the innermost group, if any; entries unchanged |
| SettingsStore.Store.SetValue | src/settings/internal/settings_internal.h:84 | stores the value under the current prefix and the key |
| SettingsStore.Store.BeginWriteArray | src/settings/settings_object.cpp:42 | opens an array and drops its stored size |
| SettingsStore.Store.BeginReadArray | src/settings/settings_object.cpp:80 | returns the stored size, converted to an int, and opens the array read-only |
| SettingsStore.Store.SetArrayIndex | src/settings/settings_object.cpp:46 | selects element `i + 1` and, while writing, raises the array's size to it |
| SettingsStore.Store.EndArray | src/settings/settings_object.cpp:58 | closes the array, recording the size of a written array |
| SettingsObject.SettingsObjectData.constructor | src/settings/settings_object.cpp:115 | a new object holds no values |
| SettingsObject.SettingsObjectData.HasValuesOfType | src/settings/settings_object.cpp:16 | true exactly when values of that type are pending |
| SettingsObject.SettingsObjectData.AddValue | src/tabcontrollers/ChaperoneTabController.h:75-149 | appends to the queue of the value's type and leaves the other queues alone |
| SettingsObject.SettingsObjectData.AddBool | src/tabcontrollers/ChaperoneTabController.h:77 | appends to the bool queue only |
| SettingsObject.SettingsObjectData.AddInt | src/tabcontrollers/ChaperoneTabController.h:78 | appends to the int queue only |
| SettingsObject.SettingsObjectData.AddDouble | src/tabcontrollers/ChaperoneTabController.h:91 | appends to the double queue only |
| SettingsObject.SettingsObjectData.AddString | src/tabcontrollers/ChaperoneTabController.h:75 | appends to the string queue only |
| SettingsObject.SettingsObjectData.NextValueOrDefault | src/settings/settings_object.cpp:18 | pops the head of the queue of the default's type, or returns the default when that queue is empty |
| SettingsObject.SettingsObjectData.NextBool | src/tabcontrollers/ChaperoneTabController.h:158 | pops a bool or yields the default; other queues unchanged |
| SettingsObject.SettingsObjectData.NextInt | src/tabcontrollers/ChaperoneTabController.h:160 | pops an int or yields the default; other queues unchanged |
| SettingsObject.SettingsObjectData.NextDouble | src/tabcontrollers/ChaperoneTabController.h:175 | pops a double or yields the default; other queues unchanged |
| SettingsObject.SettingsObjectData.NextString | src/tabcontrollers/ChaperoneTabController.h:156 | pops a string or yields the default; other queues unchanged |
| SettingsObject.CreateListFromObject | src/settings/settings_object.cpp:12-21 | drains one typed queue into a list in order; the other queues are untouched |
| SettingsObject.AddListToObject | src/settings/settings_object.cpp:23-32 | appends the whole list to that typed queue in order and empties the list |
| SettingsObject.ReadElems | src/settings/settings_object.cpp:84-105 | reads `n` elements, each converted to the requested type |
| SettingsObject.ReadArray | src/settings/settings_object.cpp:61-111 | every element read back has the requested type |
| SettingsObject.TypeName | src/settings/settings_object.cpp:117-145 | the array names are `bools`, `ints`, `doubles` and `strings` |
| SettingsObject.SaveListToDisk | src/settings/settings_object.cpp:34-60 | writes the list as a Qt array under `structName/typeName` and restores the group stack |
| SettingsObject.WriteArrayElements | src/settings/settings_object.cpp:44-56 | the loop writes element `i` at array index `i + 1` and leaves the array size equal to the list length |
| SettingsObject.LoadListFromDisk | src/settings/settings_object.cpp:61-111 | reads the stored array back without changing the store |
| SettingsObject.WriteElemsLookup | src/settings/settings_object.cpp:44-56 | after writing, each element key holds its value and every other key is unchanged |
| SettingsObject.ReadWriteArray | src/settings/settings_object.cpp:34-111 | loading a saved list of one type returns that list |
| SettingsObject.WriteArrayOutside | src/settings/settings_object.cpp:34-60 | writing an array changes no key outside its group |
| SettingsObject.ReadArrayElsewhere | src/settings/settings_object.cpp:34-111 | writing one array does not change what another array of the same depth reads |
| SettingsObject.ReadObject | src/settings/settings_object.cpp:113-130 | a loaded object's four queues are each of their own type |
| SettingsObject.ReadWriteObject | src/settings/settings_object.cpp:113-146 | loading a saved object restores its four queues exactly |
| SettingsObject.SaveSettingsObject | src/settings/settings_object.cpp:132-146 | drains all four queues into the four arrays under the object's name |
| SettingsObject.LoadSettingsObject | src/settings/settings_object.cpp:113-130 | builds a new object holding the four stored arrays, without changing the store |
| SettingsObject.AppendSlotNumberToSettingsName | src/settings/settings_object.cpp:148-152 | the name, a dash, then the decimal slot number |
| SettingsObject.SlotNamesDistinct | src/settings/settings_object.cpp:148-152 | different slots give different group names |
| SettingsObject.SlotsBound | src/settings/settings_object.cpp:185-200 | the counted slots are distinct groups, so the count never exceeds the number of groups |
| SettingsObject.GetAmountOfSavedObjects | src/settings/settings_object.cpp:185-200 | returns the number of consecutive slots from 1 that exist; slot `n + 1` does not |
| ChaperoneProfiles.ToSigned32 | src/tabcontrollers/ChaperoneTabController.h:78 | `static_cast<int>` of an unsigned count lies in the int range and keeps small values |
| ChaperoneProfiles.InitialProfile | src/tabcontrollers/ChaperoneTabController.h:23-68 | the member initialisers; `LoadFromEmpty` shows that loading from nothing gives them back |
| ChaperoneProfiles.ToUnsigned32 | src/tabcontrollers/ChaperoneTabController.h:159-160 | `static_cast<unsigned>` keeps values that fit |
| ChaperoneProfiles.QuadCountCastsRoundTrip | src/tabcontrollers/ChaperoneTabController.h:78-160 | a quad count survives the int/unsigned casts for every 32-bit value |
| ChaperoneProfiles.SavedQueues | src/tabcontrollers/ChaperoneTabController.h:71-152 | what each of the four queues holds after saving, block by block |
| ChaperoneProfiles.SavedCounts | src/tabcontrollers/ChaperoneTabController.h:71-152 | saving writes 1 string, 5 ints, 22 bools, and 21 doubles plus 12 per quad when the count is non-zero |
| ChaperoneProfiles.SavedWellTyped | src/tabcontrollers/ChaperoneTabController.h:71-152 | every saved value sits in the queue of its type |
| ChaperoneProfiles.Loaded | src/tabcontrollers/ChaperoneTabController.h:162-179 | when the quads-valid flag is read, the quad list is resized to the read count; otherwise the prior quads are kept |
| ChaperoneProfiles.AddQuads | src/tabcontrollers/ChaperoneTabController.h:85-95 | appends the 12 doubles of each quad, corner by corner |
| ChaperoneProfiles.AddPose | src/tabcontrollers/ChaperoneTabController.h:97-103 | appends the 12 pose entries row by row |
| ChaperoneProfiles.AddColors | src/tabcontrollers/ChaperoneTabController.h:125-128 | appends the three colour ints |
| ChaperoneProfiles.SaveHeader | src/tabcontrollers/ChaperoneTabController.h:75-95 | name, geometry flag, count, valid flag and quads are appended as specified |
| ChaperoneProfiles.SavePlayArea | src/tabcontrollers/ChaperoneTabController.h:97-106 | pose and play-area size are appended as specified |
| ChaperoneProfiles.SaveMarkers | src/tabcontrollers/ChaperoneTabController.h:108-121 | the visibility, fade and marker values are appended as specified |
| ChaperoneProfiles.SaveStyle | src/tabcontrollers/ChaperoneTabController.h:123-134 | colour, style and force-bounds values are appended as specified |
| ChaperoneProfiles.SaveProximity | src/tabcontrollers/ChaperoneTabController.h:136-149 | the proximity-warning values are appended as specified |
| ChaperoneProfiles.SaveProfile | src/tabcontrollers/ChaperoneTabController.h:71-152 | a new object holding exactly the saved contents of the profile |
| ChaperoneProfiles.ReadQuads | src/tabcontrollers/ChaperoneTabController.h:166-178 | reads `count` quads of 12 doubles each and consumes exactly those |
| ChaperoneProfiles.ReadQuadList | src/tabcontrollers/ChaperoneTabController.h:164-179 | quad `k` is built from doubles `12k … 12k+11` |
| ChaperoneProfiles.ReadPose | src/tabcontrollers/ChaperoneTabController.h:181-188 | reads the 3×4 pose row by row and consumes 12 doubles |
| ChaperoneProfiles.ReadColors | src/tabcontrollers/ChaperoneTabController.h:210-213 | reads three ints, each defaulting to 0 |
| ChaperoneProfiles.LoadHeader | src/tabcontrollers/ChaperoneTabController.h:156-179 | reads the header block and consumes exactly its values |
| ChaperoneProfiles.LoadPlayArea | src/tabcontrollers/ChaperoneTabController.h:181-191 | reads the pose and play-area size and consumes 14 doubles |
| ChaperoneProfiles.LoadMarkers | src/tabcontrollers/ChaperoneTabController.h:193-206 | reads the marker block |
| ChaperoneProfiles.LoadStyle | src/tabcontrollers/ChaperoneTabController.h:208-219 | reads the style block |
| ChaperoneProfiles.LoadProximity | src/tabcontrollers/ChaperoneTabController.h:221-238 | reads the proximity block |
| ChaperoneProfiles.LoadProfile | src/tabcontrollers/ChaperoneTabController.h:154-239 | the loaded profile is `Loaded(prior, contents)`; the unread values stay queued |
| ChaperoneProfiles.HeaderRoundTrip | src/tabcontrollers/ChaperoneTabController.h:75-179 | the header loads back as saved; with a zero count, the prior quads are kept |
| ChaperoneProfiles.QuadListRoundTrip | src/tabcontrollers/ChaperoneTabController.h:83-179 | a non-empty quad list loads back exactly |
| ChaperoneProfiles.PlayAreaRoundTrip | src/tabcontrollers/ChaperoneTabController.h:97-191 | pose and play-area size load back as saved |
| ChaperoneProfiles.MarkersRoundTrip | src/tabcontrollers/ChaperoneTabController.h:108-206 | the marker block loads back as saved |
| ChaperoneProfiles.StyleRoundTrip | src/tabcontrollers/ChaperoneTabController.h:123-219 | the style block loads back as saved |
| ChaperoneProfiles.ProximityRoundTrip | src/tabcontrollers/ChaperoneTabController.h:136-238 | the proximity block loads back as saved |
| ChaperoneProfiles.ProfileRoundTrip | src/tabcontrollers/ChaperoneTabController.h:71-239 | loading a saved profile gives it back, except that a zero count keeps the prior quads |
| ChaperoneProfiles.LoadFromEmpty | src/tabcontrollers/ChaperoneTabController.h:154-239 | loading from nothing yields the member defaults with a zero pose, and the prior quads |
| ChaperoneProfiles.SavedQuadCountRestored | src/tabcontrollers/ChaperoneTabController.h:78-160 | the quad count always survives a save/load |
| ChaperoneProfiles.SaveProfileObject | src/settings/settings_object.cpp:158-176 | saves the profile's contents under its settings name, or under that name with the slot number |
| ChaperoneProfiles.LoadProfileObject | src/settings/settings_object.cpp:164-183 | loads the profile from the same group without changing the store |
| ChaperoneProfiles.ProfileStoreRoundTrip | src/settings/settings_object.cpp:158-183 | saving a profile to the store and loading it back gives it back, apart from the zero-count quads |
| ChaperoneProfiles.ProfileSlotsDistinct | src/tabcontrollers/ChaperoneTabController.h:241-244 | numbered slots never collide with each other or with the unnumbered profile |
| SettingsInternal.CategoryCode | src/settings/internal/settings_internal.h:41-62 | the ten categories have codes 0-9 |
| SettingsInternal.QtCategoryName | src/settings/internal/settings_internal.h:38-65 | every category has a real group name, never `no-value` |
| SettingsInternal.NoValueOnlyOutOfRange | src/settings/internal/settings_internal.h:38-65 | `no-value` is returned exactly for a code outside the ten categories |
| SettingsInternal.QtCategoryNamesDistinct | src/settings/internal/settings_internal.h:38-65 | each category has its own group name, never `no-value` |
| SettingsInternal.QtSettingPathsDistinct | src/settings/internal/settings_internal.h:67-86 | two settings share a key exactly when category and name agree |
| SettingsInternal.QtSettingPath | src/settings/internal/settings_internal.h:67-86 | the key of a setting: the open groups, the category group, then the name; `QtSettingPathsDistinct` shows that keys never collide |
| SettingsInternal.GetQtSetting | src/settings/internal/settings_internal.h:67-77 | returns the value under the category group and name, leaving store and group stack unchanged |
| SettingsInternal.SaveQtSetting | src/settings/internal/settings_internal.h:79-86 | writes the value under the category group and name; group stack unchanged |
| SettingsInternal.GetAfterSave | src/settings/internal/settings_internal.h:67-86 | a get after a save returns the saved value for that setting, and the old one for any other |
| SettingsInternal.IsValidQVariantIff | src/settings/internal/settings_internal.h:88-104 | a variant is usable exactly when it holds a value |
| SettingsInternal.IsValidQVariant | src/settings/internal/settings_internal.h:88-104 | neither invalid nor null, and convertible to the requested type; `IsValidQVariantIff` reduces it to holding a value |
| SettingValues.InitialValue | src/settings/internal/specific_setting_value.h:26-50 | the initial value has the default's type |
| SettingValues.InitialValueOfSaved | src/settings/internal/specific_setting_value.h:26-50 | a stored value of the right type becomes the initial value |
| SettingValues.InitialValueOfMissing | src/settings/internal/specific_setting_value.h:12-29 | a missing setting starts at its default |
| SettingValues.ConstructedEntriesSettle | src/settings/internal/specific_setting_value.h:51-56 | after construction the setting is stored; constructing again changes nothing; no other key changes |
| SettingValues.SpecificSettingValue.constructor | src/settings/internal/specific_setting_value.h:12-57 | takes the stored value if valid, else the default, and writes the default back when nothing valid was stored |
| SettingValues.SpecificSettingValue.SetValue | src/settings/internal/specific_setting_value.h:59-62 | sets the value |
| SettingValues.SpecificSettingValue.SaveValue | src/settings/internal/specific_setting_value.h:84-100 | stores the value under its category and name |
| SettingValues.DoubleSettingValue.constructor | src/settings/internal/double_setting_value.h:12-25 | takes the stored value if valid, else the default; the store is not written |
| SettingValues.DoubleSettingValue.SetValue | src/settings/internal/double_setting_value.h:27-30 | sets the value |
| SettingValues.DoubleSettingValue.SaveValue | src/settings/internal/double_setting_value.h:52-57 | stores the value under its category and name |
| SettingValues.BoolSettingValue.constructor | src/settings/internal/bool_setting_value.h:12-25 | takes the stored value if valid, else the default; the store is not written |
| SettingValues.BoolSettingValue.SetValue | src/settings/internal/bool_setting_value.h:27-30 | sets the value |
| SettingValues.BoolSettingValue.SaveValue | src/settings/internal/bool_setting_value.h:52-57 | stores the value under its category and name |
| SettingValues.SaveThenReload | src/settings/internal/specific_setting_value.h:26-100 | a setting saved and then constructed again starts at the saved value |
| SettingValues.SaveLeavesOtherSettings | src/settings/internal/settings_internal.h:79-86 | saving one setting does not change the initial value of any other |
| OvrSettingsWrapper.Handled | src/openvr/ovr_settings_wrapper.cpp:14-39 | the result is `NoError` exactly when OpenVR reported none |
| OvrSettingsWrapper.FlagAfter | src/openvr/ovr_settings_wrapper.cpp:30-34 | the unset-setting flag stays on exactly when it was on and the error is not an unset-setting error, so it never turns back on |
| OvrSettingsWrapper.OtherErrorsAlwaysLogged | src/openvr/ovr_settings_wrapper.cpp:20-29 | every other error is logged and leaves the flag alone |
| OvrSettingsWrapper.HandledTwice | src/openvr/ovr_settings_wrapper.cpp:69-82 | handling an error twice logs nothing for success, one line for an unset setting if the flag was on (none if it was off) and two lines otherwise; the flag settles after one call |
| OvrSettingsWrapper.SettingsWrapper.constructor | src/openvr/ovr_settings_wrapper.cpp:12 | the flag starts on; nothing logged or called |
| OvrSettingsWrapper.SettingsWrapper.HandleErrors | src/openvr/ovr_settings_wrapper.cpp:14-39 | returns the handled error, logs as specified and updates the sticky flag |
| OvrSettingsWrapper.SettingsWrapper.GetBool | src/openvr/ovr_settings_wrapper.cpp:41-53 | one get call; returns the runtime's value with the handled error |
| OvrSettingsWrapper.SettingsWrapper.GetInt32 | src/openvr/ovr_settings_wrapper.cpp:55-67 | one get call; returns the runtime's value with the handled error |
| OvrSettingsWrapper.SettingsWrapper.GetFloat | src/openvr/ovr_settings_wrapper.cpp:69-82 | one get call; the error is handled twice, so it can be logged twice |
| OvrSettingsWrapper.SettingsWrapper.GetString | src/openvr/ovr_settings_wrapper.cpp:84-105 | one get call; the error is handled twice |
| OvrSettingsWrapper.SettingsWrapper.Set | src/openvr/ovr_settings_wrapper.cpp:109-153 | one set call with the value; returns the handled error |
| OvrSettingsWrapper.SettingsWrapper.RemoveSection | src/openvr/ovr_settings_wrapper.cpp:156-161 | one remove-section call; the error is logged under the key `section` |
| OvrSettingsWrapper.SettingsWrapper.RemoveKeyInSection | src/openvr/ovr_settings_wrapper.cpp:163-171 | one remove-key call; returns the handled error |
| OvrSettingsWrapper.SettingsWrapper.ResetAllSettings | src/openvr/ovr_settings_wrapper.cpp:173-182 | issues the five section removals in order; the flag never turns back on |
| OvrSettingsWrapper.ResetRequestsDistinct | src/openvr/ovr_settings_wrapper.cpp:173-182 | the five removed sections are all different |
| OvrSystemWrapper.HandleTrackedPropertyErrors | src/openvr/ovr_system_wrapper.cpp:12-30 | `NoError` exactly on success |
| OvrSystemWrapper.GetStringTrackedProperty | src/openvr/ovr_system_wrapper.cpp:84-101 | the error part is always `NoError`, because the runtime's error is never read |
| OvrSystemWrapper.DeviceNameCases | src/openvr/ovr_system_wrapper.cpp:115-207 | disconnected devices are `No Device Connected`; known controller types map to fixed names; `vive_tracker_` types become `Tracker <side><part>`; others keep their type |
| OvrSystemWrapper.GetDeviceName | src/openvr/ovr_system_wrapper.cpp:115-207 | `No Device Connected` for a disconnected device; the fixed name for a known controller type |
| OvrSystemWrapper.DeviceNameErrorUnreachable | src/openvr/ovr_system_wrapper.cpp:126-129 | the `Error` branch is dead: `Error` comes back only for a connected device whose type string is itself `Error` |
| OvrSystemWrapper.TrackerNameShape | src/openvr/ovr_system_wrapper.cpp:163-204 | tracker names start with `Tracker `, followed by `left ` when the type says left |
| OvrSystemWrapper.GetAllConnectedDevices | src/openvr/ovr_system_wrapper.cpp:209-234 | lists, in increasing index order, exactly the connected devices (only wearable classes when asked) |
| OvrSystemWrapper.GetControllerName | src/openvr/ovr_system_wrapper.cpp:236-345 | the scan loop's result is the name chosen from the hands and the headset it found |
| OvrSystemWrapper.ScanFromFacts | src/openvr/ovr_system_wrapper.cpp:244-276 | the scan finds a left (right) hand exactly when one exists from the start index on |
| OvrSystemWrapper.ScanFindsHands | src/openvr/ovr_system_wrapper.cpp:244-276 | a whole scan finds each hand exactly when a device has that role |
| OvrSystemWrapper.ScanStopsAt | src/openvr/ovr_system_wrapper.cpp:244-275 | from any scan state that holds the last hands and headset seen so far, the scan ends at the index where both hands are first seen, keeping the last ones at or below it |
| OvrSystemWrapper.ScanStopsOnceBothHandsFound | src/openvr/ovr_system_wrapper.cpp:244-275 | the scan stops once both hands are found: the kept hands and headset are the last ones at or below that index, and later devices are ignored |
| OvrSystemWrapper.ControllerNameCases | src/openvr/ovr_system_wrapper.cpp:277-344 | with no connected hand, the headset's guess; with a right hand, its type; otherwise the left hand's type or empty |
| StringSearch.IndexOf | src/tabcontrollers/SteamVRTabController.cpp:647-658 | `std::string::find`: the first occurrence, or none exactly when the text does not contain the word |
| StringSearch.IndexOfChar | src/tabcontrollers/SteamVRTabController.cpp:647-658 | the first position holding the character |
| SteamVRTab.CountDongles | src/tabcontrollers/SteamVRTabController.cpp:376-388 | the loop counts one for a non-empty list plus one per `;` |
| SteamVRTab.DongleSerials | src/tabcontrollers/SteamVRTabController.cpp:639-670 | the serials of the dongle list; `SerialsOfRecords` and `NoCommaNoSerial` state what it yields |
| SteamVRTab.MaxDongleCountOfRecords | src/tabcontrollers/SteamVRTabController.cpp:376-388 | for `n` well-formed dongle records joined by `;`, the count is `n` |
| SteamVRTab.GetDongleSerialList | src/tabcontrollers/SteamVRTabController.cpp:639-670 | the erase loop yields exactly `DongleSerials` of the string |
| SteamVRTab.SerialsOfRecords | src/tabcontrollers/SteamVRTabController.cpp:639-670 | for well-formed records, the list is every serial in order, then the last serial again |
| SteamVRTab.NoCommaNoSerial | src/tabcontrollers/SteamVRTabController.cpp:647 | a string without a comma yields no serial |
| SteamVRTab.TundraSuffix | src/tabcontrollers/SteamVRTabController.cpp:419-432 | a `-<digit>YX` serial without a headset marker or line terminator is a Tundra dongle |
| SteamVRTab.DongleType | src/tabcontrollers/SteamVRTabController.cpp:419-432 | headset marker first, then the Tundra full match, else standard; `HeadsetFirst`, `TundraSuffix` and `LineBreakIsStandard` state the cases |
| SteamVRTab.LineBreakIsStandard | src/tabcontrollers/SteamVRTabController.cpp:424-431 | a `'\n'` before the `-<digit>YX` ending defeats the full match (`.` excludes line terminators), so the dongle is a standard one |
| SteamVRTab.HeadsetFirst | src/tabcontrollers/SteamVRTabController.cpp:419-432 | a serial with `-RYB` or `-LYM` is a headset dongle, whatever else it contains |
| SteamVRTab.AddUnPairedDevice | src/tabcontrollers/SteamVRTabController.cpp:415-437 | an unpaired entry has index −1, the dongle serial and type, "No Connection" names and serial "n/a" |
| SteamVRTab.GatheredInfo | src/tabcontrollers/SteamVRTabController.cpp:439-506 | the entry `GatherDeviceInfo` fills in; `GatheredInfoMeaning` states its fields |
| SteamVRTab.GatheredInfoMeaning | src/tabcontrollers/SteamVRTabController.cpp:439-506 | keeps the index; the dongle type is "n/a" exactly for a blank dongle; the dongle count grows exactly for a non-blank one; wearables get their device name with ` (L)`/` (R)` by role |
| SteamVRTab.IsPaired | src/tabcontrollers/SteamVRTabController.cpp:394-404 | true exactly when some listed entry uses that dongle |
| SteamVRTab.AddUnpairedKeeps | src/tabcontrollers/SteamVRTabController.cpp:389-411 | existing entries stay in place |
| SteamVRTab.AddUnpairedCovers | src/tabcontrollers/SteamVRTabController.cpp:389-411 | afterwards every serial in the list is paired |
| SteamVRTab.AddUnpairedNew | src/tabcontrollers/SteamVRTabController.cpp:389-411 | new entries are unpaired-device entries for listed dongles not yet paired, each added once |
| SteamVRTab.LastHmd | src/tabcontrollers/SteamVRTabController.cpp:358-363 | the remembered headset index is −1 or the last HMD in the list |
| SteamVRTab.NonHmd | src/tabcontrollers/SteamVRTabController.cpp:358-365 | an entry is made exactly for each non-HMD device |
| SteamVRTab.PairedEntriesFollowDevices | src/tabcontrollers/SteamVRTabController.cpp:356-366 | corrected: entry `k` is the gathered information of the `k`-th non-HMD device |
| SteamVRTab.AsWrittenEntriesIgnoreDevices | src/tabcontrollers/SteamVRTabController.cpp:362-363 | as written, every entry is gathered for index −1, whatever the device |
| SteamVRTab.AsWrittenLosesSerial | src/tabcontrollers/SteamVRTabController.cpp:362-363 | as written, a controller with serial `LHR-1` is listed with txName "n/a"; corrected, with `LHR-1` |
| SteamVRTab.SteamVRTabController.constructor | src/tabcontrollers/SteamVRTabController.h:65-84 | all toggles off, empty list, zero dongle counts |
| SteamVRTab.SteamVRTabController.GetToggle | src/tabcontrollers/SteamVRTabController.cpp:57-67 | the runtime's value when the get succeeds, else the cached toggle |
| SteamVRTab.SteamVRTabController.SetToggle | src/tabcontrollers/SteamVRTabController.cpp:69-83 | on a change: caches the value, writes it to OpenVR and notifies if asked; without a change, does nothing |
| SteamVRTab.SteamVRTabController.GatherDeviceInfo | src/tabcontrollers/SteamVRTabController.cpp:439-506 | fills the entry as `GatheredInfo` and counts a used dongle |
| SteamVRTab.SteamVRTabController.GatherPaired | src/tabcontrollers/SteamVRTabController.cpp:351-366 | the list holds the corrected entries of the non-HMD devices, and the last HMD is remembered |
| SteamVRTab.SteamVRTabController.AddUnpairedDongles | src/tabcontrollers/SteamVRTabController.cpp:389-411 | appends the unpaired dongles as `AddUnpaired` |
| SteamVRTab.SteamVRTabController.SearchRXTX | src/tabcontrollers/SteamVRTabController.cpp:351-413 | corrected (index set; see Findings): rebuilds the list from the connected devices; with a headset, records the dongle string and count and adds unpaired dongles when fewer devices than dongles are listed |
| SteamVRBindings.SearchBetween | src/tabcontrollers/SteamVRTabController.cpp:977-998 | a match exists exactly when some opening word has a closing word after it; the group is the leftmost, greedy one, running from the first opening word to the last closing word after it |
| SteamVRBindings.BindingFileName | src/tabcontrollers/SteamVRTabController.cpp:783-792 | the scene and default binding file names; the round-trip lemmas recover the app id from them |
| SteamVRBindings.AppIdOf | src/tabcontrollers/SteamVRTabController.cpp:977-998 | the scene search first, then the default one; `SceneBindingRoundTrip` and `DefaultBindingRoundTrip` state what it recovers |
| SteamVRBindings.ApplyAllCustomBindings | src/tabcontrollers/SteamVRTabController.cpp:968-1004 | collects exactly the app ids extracted from the binding file names |
| SteamVRBindings.BindingToApply | src/tabcontrollers/SteamVRTabController.cpp:852-884 | nothing without a scene app; the scene-specific file whenever it exists; only an existing file of the two names; none exactly when there is no scene app or neither file exists |
| SteamVRBindings.SceneBindingRoundTrip | src/tabcontrollers/SteamVRTabController.cpp:783-990 | the app id is recovered from a saved scene binding's file name |
| SteamVRBindings.DefaultBindingRoundTrip | src/tabcontrollers/SteamVRTabController.cpp:783-998 | the app id is recovered from a saved default binding's file name |
| SteamVRBindings.SavedBindingIsApplied | src/tabcontrollers/SteamVRTabController.cpp:783-1004 | a saved scene binding's app id is among those applied |

## Left out

- Sockets, threads and sleeping. The Winsock calls, `std::thread`, the
  worker loop's timing and the global `g_bRunning` driver
  (`BoundrySync.cpp` around lines 59-150, 195-250, 330-352) become:
  - boolean outcomes (`Start`);
  - abstract `recv` return values (`Run`);
  - a datagram list per round (`RoundDatagrams`).
- OpenVR runtime calls. Pose queries, the chaperone-setup getters and
  setters, and the `VRSystem()` property queries become:
  - inputs (a `Runtime` value, an optional head pose);
  - a call log.

  The runtime's own behaviour is outside the model.
- The typed tracked-property getters `getBoolTrackedProperty`,
  `getInt32TrackedProperty` and `getFloatTrackedProperty`
  (`ovr_system_wrapper.cpp:37-82`) are not modelled separately. Each
  pairs `handleTrackedPropertyErrors` with the runtime's value, and
  nothing in the model calls them.
- Floating-point rounding, NaN payloads and `float`/`double`
  conversions. Reals stand in for both. `sqrt` and `asin` are
  parameters. The endpoint tie in `_getDistancesToChaperone`
  (`ChaperoneUtils.cpp:40-51`) can arise only from rounding, because
  over the reals equal end distances put the projection inside the wall
  (`ChaperoneUtils.EqualEndDistancesAtMidpoint`). Reals have no signed
  zero, so `Quaternion.CopySign` takes a zero sign as positive, whereas
  `copysign` with a sign of -0 gives a negative result.
- SettingsObject.SaveListToDisk, SettingValues.SpecificSettingValue.SaveValue:
  the model stores each string whole. The code passes `c_str()` to Qt
  (`settings_object.cpp:49`, `specific_setting_value.h:98`). A
  `QVariant` built from a `const char*` stops at the first NUL, so
  `"a\0b"` is stored as `"a"`. The round trips `SettingsObject.ReadWriteArray`,
  `SettingsObject.ReadWriteObject`, `ChaperoneProfiles.ProfileStoreRoundTrip`
  and `SettingValues.SaveThenReload` therefore hold in the code only for
  strings without a NUL character.
- `getYaw`, `getPitch` and `FrameRates::toDoubleSeconds`. They are
  trigonometry, with no state and no property beyond the library
  calls.
- Quaternion.Multiply: associativity of the Hamilton product is not
  proved, because that nonlinear real identity is beyond the solver
  here. The identity, conjugate and norm laws are proved.
- Matrix.MatMul33, Matrix.MatTimesVec33, Matrix.VecTimesMat33: the
  model requires `result` to differ from the inputs. `MatMul33`
  requires it to differ from `lhs` and `rhs`, `MatTimesVec33` from
  `rhs`, and `VecTimesMat33` from `lhs`. The C++ accepts aliased
  arguments and then reads partly overwritten entries; that aliasing
  is not modelled.
- `_corners` and `quadsBuffer` are written without being sized first,
  which is undefined behaviour in C++ (`ChaperoneUtils.cpp:91-106`).
  The model holds them as sequences of length `quadsCount`.
- ChaperoneUtils.ChaperoneEngine.LoadChaperoneData: requires quad counts
  below 2^32. Those counts come from OpenVR in a `uint32_t`, so the
  caller cannot exceed the range.
- ChaperoneProfiles.ProfileRoundTrip: requires the stored quad list to
  have `chaperoneGeometryQuadCount` entries. `saveSettings` writes every
  quad in the list but `loadSettings` reads back `count` quads, so a
  profile whose list and count disagree does not round-trip. The code
  does not rule that out.
- ChaperoneProfiles.InitialProfile: `standingCenter` has no initialiser
  in the code, so the initial pose is a parameter.
- OvrSettingsWrapper.SettingsWrapper.ResetAllSettings: states the five
  removal calls and bounds the log by five lines. It does not state
  the exact log text, because each removal's error comes from the
  runtime.
- The text of every log message (`qCritical`/`qInfo`). The model
  records only whether and when a line is logged.
- `QVariant` conversions between different types (`"1"` to `int`,
  `int` to `bool`, …). A stored value of another type reads as the
  type's default. The model does not cover Qt's cross-type coercions.
- SettingsStore: models the part of Qt's `QSettings` that the code
  uses. Key paths through groups and arrays, the 1-based array indices
  and the `size` key are included. File formats, syncing and
  case-insensitive keys are not.
- The receive side of the discovery protocol. The repository never
  decodes a packet. `DiscoveryProtocol.DecodePacket` exists only as the
  inverse for the round-trip lemma.
- The unused debounce state in `ChaperoneSyncClient`
  (`BoundrySync.cpp:226-228`).
- UI and network glue in `SteamVRTabController.cpp`. This covers:
  - WebSocket pairing and the HTTP/JSON binding requests;
  - the file writes in `saveBind` and the file checks in
    `customBindExists`/`defBindExists`;
  - the per-row list accessors and `restartSteamVR`.

  The file names these use are modelled (`BindingFileName`), and file
  existence is a parameter (`BindingToApply`).
- SteamVRBindings.ApplyAllCustomBindings: each of the two
  `std::regex` searches `open(.*)close` is modelled as the leftmost,
  greedy match: the text between the first opening word and the last
  closing word after it (`SearchBetween`). The model lets that text
  hold line terminators. In ECMAScript regular expressions `.` does
  not match `'\n'` or `'\r'`, so for such file names the code can
  find a shorter match or none. The round-trip lemmas cover file names
  that contain the delimiting words only where the scheme puts them.
- The audio managers, the comfort-turning consumers (only declared)
  and the Qt declaration-only tab controller classes. They are
  declarations or I/O plumbing.

## Findings

| source | as written | input that shows it | evidently intended | confidence | as-written member | corrected member |
|---|---|---|---|---|---|---|
| src/tabcontrollers/BoundrySync.cpp:304-307 | each synced wall quad is `[p1 floor, p2 floor, p2 top, p1 top]`, so its last vertex is `p1` at wall height, while `loadChaperoneData` (`ChaperoneUtils.cpp:108-114`) requires each quad's last vertex to equal the next quad's first vertex (on the floor) | any synced frame, e.g. a 1 m square: quad 0 ends at (0, 2.4, 0) while quad 1 starts at (1, 0, 0), so the next load marks the chaperone not well-formed | order the vertices `[p1 floor, p1 top, p2 top, p2 floor]`, the layout the loader checks | not executed | SyncReload.SyncedBoundaryReloadsMalformed, SyncReload.ReloadAfterSync | SyncReload.CorrectedSyncReloadsWellFormed, SyncReload.ReloadAfterCorrectedSync |
| src/tabcontrollers/SteamVRTabController.cpp:362-363 | `searchRXTX` appends a default `DeviceInfo` and calls `GatherDeviceInfo` on it without setting `index`, so every paired entry is gathered for the default index −1 | a controller at index 1 with serial `LHR-1`, and nothing at index −1: the listed entry shows txName "n/a" | set `index = device` on the new entry before gathering | not executed | SteamVRTab.AsWrittenEntriesIgnoreDevices, SteamVRTab.AsWrittenLosesSerial | SteamVRTab.PairedEntriesFollowDevices, SteamVRTab.SteamVRTabController.SearchRXTX |
