/**
  The frame encoder of the lidar driver: one revolution of scan points
  becomes a polar `LaserScan` record and a Cartesian `PointCloud` record
  whose points are packed into a flat little-endian byte buffer.

  Floating-point values are opaque bit patterns. The encoder copies them
  and never computes with them, except for the projection of a polar
  sample to x/y, which is a parameter of the model.
 */
module Frames {
  import opened Bytes
  import opened Timestamp

  /** One sample as the sensor driver reports it: `angle()`, `distance()`,
      `quality` and `is_valid()`. */
  datatype ScanPoint = ScanPoint(angle: F32, distance: F32, quality: byte, valid: bool)

  /** Cartesian coordinates of a sample (the `(x, y)` of the projection). */
  datatype Planar = Planar(x: F32, y: F32)

  /** The projection `(distance * cos(-angle), distance * sin(-angle))`,
      taking `(angle, distance)`. */
  type Projection = (F32, F32) -> Planar

  /** A projected point as it is packed: x, y and the raw quality. */
  datatype CloudPoint = CloudPoint(x: F32, y: F32, quality: byte)

  /** `foxglove.PackedElementField.NumericType`, in declaration order
      (`UNKNOWN = 0` through `FLOAT64 = 8`). */
  datatype NumericType = Unknown | Uint8 | Int8 | Uint16 | Int16 | Uint32 | Int32 | Float32 | Float64

  function Width(t: NumericType): nat
  {
    match t
    case Unknown => 0
    case Uint8 => 1
    case Int8 => 1
    case Uint16 => 2
    case Int16 => 2
    case Uint32 => 4
    case Int32 => 4
    case Float32 => 4
    case Float64 => 8
  }

  datatype PackedElementField = PackedElementField(name: string, offset: nat, numericType: NumericType)

  function FieldEnd(f: PackedElementField): nat
  {
    f.offset + Width(f.numericType)
  }

  /** Byte width of one packed point: x (f32), y (f32), quality (u8). */
  const PointStride: nat := 4 + 4 + 1

  /** The field descriptors every point cloud carries. */
  const CloudFields: seq<PackedElementField> := [
    PackedElementField("x", 0, Float32),
    PackedElementField("y", 4, Float32),
    PackedElementField("quality", 8, Uint8)
  ]

  /** 64-bit float bit pattern, used only for the fixed pose. */
  type F64 = x: int | 0 <= x < 0x1_0000_0000_0000_0000

  datatype Vector3 = Vector3(x: F64, y: F64, z: F64)
  datatype Quaternion = Quaternion(x: F64, y: F64, z: F64, w: F64)
  datatype Pose = Pose(position: Vector3, orientation: Quaternion)

  /** The pose every frame carries: all components 0.0 (the bit pattern 0),
      including the quaternion's `w`. */
  const FixedPose: Pose := Pose(Vector3(0, 0, 0), Quaternion(0, 0, 0, 0))

  /** `foxglove.LaserScan`. Start/end angles and ranges hold the `f32`
      values the driver widens to `f64`; intensities hold the `u8`
      qualities it widens to `f64`. */
  datatype LaserScan = LaserScan(
    timestamp: ProtoTime,
    frameId: string,
    pose: Pose,
    startAngle: F32,
    endAngle: F32,
    ranges: seq<F32>,
    intensities: seq<byte>)

  /** `foxglove.PointCloud`. */
  datatype PointCloud = PointCloud(
    timestamp: ProtoTime,
    frameId: string,
    pose: Pose,
    pointStride: nat,
    fields: seq<PackedElementField>,
    data: seq<byte>)

  // ---------------------------------------------------------------------
  // Field layout

  /** `fields` describe a record of `stride` bytes with no gap and no
      overlap: each field lies inside the record, fields are in offset
      order without overlapping, and their widths add up to the stride. */
  predicate Tiles(fields: seq<PackedElementField>, stride: nat)
  {
    && (forall i :: 0 <= i < |fields| ==> FieldEnd(fields[i]) <= stride)
    && (forall i, j :: 0 <= i < j < |fields| ==> FieldEnd(fields[i]) <= fields[j].offset)
    && SumWidths(fields) == stride
  }

  function SumWidths(fields: seq<PackedElementField>): nat
  {
    if |fields| == 0 then 0 else Width(fields[0].numericType) + SumWidths(fields[1..])
  }

  lemma CloudFieldsTileStride()
    ensures Tiles(CloudFields, PointStride)
    ensures PointStride == 9
  {
  }

  // ---------------------------------------------------------------------
  // Laser scan

  function Ranges(scan: seq<ScanPoint>): (r: seq<F32>)
    ensures |r| == |scan|
    ensures forall i :: 0 <= i < |scan| ==> r[i] == scan[i].distance
  {
    if |scan| == 0 then [] else [scan[0].distance] + Ranges(scan[1..])
  }

  function Intensities(scan: seq<ScanPoint>): (r: seq<byte>)
    ensures |r| == |scan|
    ensures forall i :: 0 <= i < |scan| ==> r[i] == scan[i].quality
  {
    if |scan| == 0 then [] else [scan[0].quality] + Intensities(scan[1..])
  }

  /** The laser-scan record of a (sorted) revolution captured `elapsed`
      nanoseconds after the Unix epoch. */
  function BuildLaserScan(scan: seq<ScanPoint>, elapsed: nat, frameId: string): (r: LaserScan)
    requires elapsed < DurationNanosBound
    ensures r.timestamp == ToProtoTime(elapsed) && r.frameId == frameId && r.pose == FixedPose
    ensures |scan| == 0 ==> r.startAngle == 0 && r.endAngle == 0
    ensures |scan| > 0 ==> r.startAngle == scan[0].angle && r.endAngle == scan[|scan| - 1].angle
    ensures |r.ranges| == |scan| && |r.intensities| == |scan|
    ensures forall i :: 0 <= i < |scan| ==>
              r.ranges[i] == scan[i].distance && r.intensities[i] == scan[i].quality
  {
    var startAngle := if |scan| > 0 then scan[0].angle else 0;
    var endAngle := if |scan| > 0 then scan[|scan| - 1].angle else 0;
    LaserScan(ToProtoTime(elapsed), frameId, FixedPose, startAngle, endAngle,
              Ranges(scan), Intensities(scan))
  }

  // ---------------------------------------------------------------------
  // Point cloud

  /** Positions of the valid samples, in scan order. */
  function ValidIndices(scan: seq<ScanPoint>): (r: seq<nat>)
    ensures |r| <= |scan|
    ensures forall k :: 0 <= k < |r| ==> r[k] < |scan| && scan[r[k]].valid
    ensures forall k, l :: 0 <= k < l < |r| ==> r[k] < r[l]
    ensures forall i :: 0 <= i < |scan| && scan[i].valid ==> i in r
  {
    if |scan| == 0 then []
    else
      var prefix := scan[..|scan| - 1];
      assert forall i :: 0 <= i < |prefix| ==> prefix[i] == scan[i];
      ValidIndices(prefix) + (if scan[|scan| - 1].valid then [|scan| - 1] else [])
  }

  /** `scan.iter().filter(|p| p.is_valid())`. */
  function ValidPoints(scan: seq<ScanPoint>): (r: seq<ScanPoint>)
    ensures |r| <= |scan|
    ensures forall k :: 0 <= k < |r| ==> r[k].valid
  {
    if |scan| == 0 then []
    else ValidPoints(scan[..|scan| - 1]) + (if scan[|scan| - 1].valid then [scan[|scan| - 1]] else [])
  }

  /** The filter keeps exactly the valid samples, in order. */
  lemma {:induction false} ValidPointsAreValidIndices(scan: seq<ScanPoint>)
    ensures |ValidPoints(scan)| == |ValidIndices(scan)|
    ensures forall k :: 0 <= k < |ValidPoints(scan)| ==>
              ValidPoints(scan)[k] == scan[ValidIndices(scan)[k]]
  {
    if |scan| > 0 {
      var prefix := scan[..|scan| - 1];
      ValidPointsAreValidIndices(prefix);
      var points, indices := ValidPoints(prefix), ValidIndices(prefix);
      assert forall k :: 0 <= k < |indices| ==> scan[indices[k]] == prefix[indices[k]];
      if scan[|scan| - 1].valid {
        assert ValidPoints(scan) == points + [scan[|scan| - 1]];
        assert ValidIndices(scan) == indices + [|scan| - 1];
      } else {
        assert ValidPoints(scan) == points;
        assert ValidIndices(scan) == indices;
      }
    }
  }

  /** A kept sample becomes the projection of its polar coordinates, with
      its quality carried over. */
  function ProjectPoint(p: ScanPoint, project: Projection): (c: CloudPoint)
    ensures Planar(c.x, c.y) == project(p.angle, p.distance)
    ensures c.quality == p.quality
  {
    var xy := project(p.angle, p.distance);
    CloudPoint(xy.x, xy.y, p.quality)
  }

  function ProjectAll(points: seq<ScanPoint>, project: Projection): (r: seq<CloudPoint>)
    ensures |r| == |points|
    ensures forall k :: 0 <= k < |points| ==> r[k] == ProjectPoint(points[k], project)
  {
    if |points| == 0 then [] else [ProjectPoint(points[0], project)] + ProjectAll(points[1..], project)
  }

  /** x as f32 LE, then y as f32 LE, then quality as one byte. */
  function PackPoint(p: CloudPoint): (r: seq<byte>)
    ensures |r| == PointStride
  {
    F32Bytes(p.x) + F32Bytes(p.y) + [p.quality]
  }

  /** `flat_map` of `PackPoint` over the projected points. */
  function Pack(points: seq<CloudPoint>): (r: seq<byte>)
    ensures |r| == PointStride * |points|
  {
    if |points| == 0 then [] else PackPoint(points[0]) + Pack(points[1..])
  }

  /** Bytes `[9k, 9k+9)` of the buffer are exactly the k-th packed point. */
  lemma {:induction false} PackSlice(points: seq<CloudPoint>, k: nat)
    requires k < |points|
    ensures PointStride * k + PointStride <= |Pack(points)|
    ensures Pack(points)[PointStride * k..PointStride * k + PointStride] == PackPoint(points[k])
  {
    if k > 0 {
      PackSlice(points[1..], k - 1);
      var rest := Pack(points[1..]);
      assert Pack(points) == PackPoint(points[0]) + rest;
      assert Pack(points)[PointStride * k..PointStride * k + PointStride]
          == rest[PointStride * (k - 1)..PointStride * (k - 1) + PointStride];
    }
  }

  /** The point-cloud record of a (sorted) revolution. */
  function BuildPointCloud(scan: seq<ScanPoint>, elapsed: nat, frameId: string, project: Projection): (r: PointCloud)
    requires elapsed < DurationNanosBound
    ensures r.timestamp == ToProtoTime(elapsed) && r.frameId == frameId && r.pose == FixedPose
    ensures r.pointStride == PointStride && r.fields == CloudFields
    ensures |r.data| == PointStride * |ValidIndices(scan)|
  {
    ValidPointsAreValidIndices(scan);
    var points := ProjectAll(ValidPoints(scan), project);
    PointCloud(ToProtoTime(elapsed), frameId, FixedPose, PointStride, CloudFields, Pack(points))
  }

  /** Both records of one revolution, stamped with the same capture time. */
  function Encode(scan: seq<ScanPoint>, elapsed: nat, frameId: string, project: Projection): (r: (LaserScan, PointCloud))
    requires elapsed < DurationNanosBound
    ensures r.0.timestamp == r.1.timestamp && r.0.frameId == r.1.frameId == frameId
    ensures |r.1.data| <= r.1.pointStride * |r.0.ranges|
  {
    (BuildLaserScan(scan, elapsed, frameId), BuildPointCloud(scan, elapsed, frameId, project))
  }

  // ---------------------------------------------------------------------
  // Decoding with the field descriptors

  datatype FieldValue = F32Value(bits: F32) | U8Value(b: byte) | RawValue(raw: seq<byte>)

  /** Reads one field of a packed record as its descriptor declares it. */
  function ReadField(record: seq<byte>, f: PackedElementField): FieldValue
    requires FieldEnd(f) <= |record|
  {
    match f.numericType
    case Float32 => F32Value(F32FromBytes(record[f.offset..f.offset + 4]))
    case Uint8 => U8Value(record[f.offset])
    case _ => RawValue(record[f.offset..FieldEnd(f)])
  }

  function ReadRecord(record: seq<byte>, fields: seq<PackedElementField>): (r: seq<FieldValue>)
    requires forall i :: 0 <= i < |fields| ==> FieldEnd(fields[i]) <= |record|
    ensures |r| == |fields|
  {
    if |fields| == 0 then [] else [ReadField(record, fields[0])] + ReadRecord(record, fields[1..])
  }

  /** A consumer's view of a point-cloud buffer: consecutive records of
      `stride` bytes, each read field by field. */
  function Unpack(data: seq<byte>, stride: nat, fields: seq<PackedElementField>): seq<seq<FieldValue>>
    requires stride > 0
    requires forall i :: 0 <= i < |fields| ==> FieldEnd(fields[i]) <= stride
    decreases |data|
  {
    if |data| < stride then []
    else [ReadRecord(data[..stride], fields)] + Unpack(data[stride..], stride, fields)
  }

  function Decoded(p: CloudPoint): seq<FieldValue>
  {
    [F32Value(p.x), F32Value(p.y), U8Value(p.quality)]
  }

  /** Reading a packed point with the declared descriptors gives back its
      x bits, y bits and quality. */
  lemma ReadPackedPoint(p: CloudPoint)
    ensures ReadRecord(PackPoint(p), CloudFields) == Decoded(p)
  {
    var bytes := PackPoint(p);
    assert bytes[0..4] == F32Bytes(p.x);
    assert bytes[4..8] == F32Bytes(p.y);
    assert bytes[8] == p.quality;
    F32RoundTrip(p.x);
    F32RoundTrip(p.y);
    var fs := CloudFields;
    assert ReadRecord(bytes, fs[2..]) == [U8Value(p.quality)] by {
      assert fs[2..][1..] == [];
    }
    assert fs[1..][1..] == fs[2..];
    assert ReadRecord(bytes, fs[1..]) == [F32Value(p.y), U8Value(p.quality)];
  }

  /** Round trip: unpacking the packed buffer with the declared stride and
      descriptors reproduces every point, in order. */
  lemma {:induction false} UnpackPack(points: seq<CloudPoint>)
    ensures Unpack(Pack(points), PointStride, CloudFields) == seq(|points|, k requires 0 <= k < |points| => Decoded(points[k]))
  {
    if |points| > 0 {
      var data := Pack(points);
      assert data[..PointStride] == PackPoint(points[0]);
      assert data[PointStride..] == Pack(points[1..]);
      ReadPackedPoint(points[0]);
      UnpackPack(points[1..]);
    }
  }

  /** The k-th record of a produced point cloud holds the projected x, y and
      the quality of the k-th valid sample of the revolution. */
  lemma PointCloudRoundTrip(scan: seq<ScanPoint>, elapsed: nat, frameId: string, project: Projection)
    requires elapsed < DurationNanosBound
    ensures var cloud := BuildPointCloud(scan, elapsed, frameId, project);
            var records := Unpack(cloud.data, cloud.pointStride, cloud.fields);
            && |records| == |ValidIndices(scan)|
            && forall k :: 0 <= k < |records| ==>
                 var p := scan[ValidIndices(scan)[k]];
                 var xy := project(p.angle, p.distance);
                 records[k] == [F32Value(xy.x), F32Value(xy.y), U8Value(p.quality)]
  {
    ValidPointsAreValidIndices(scan);
    UnpackPack(ProjectAll(ValidPoints(scan), project));
  }

  /** The two records agree: the quality in the k-th cloud point is the
      intensity of the laser-scan entry the point came from. */
  lemma CloudQualitiesMatchIntensities(scan: seq<ScanPoint>, elapsed: nat, frameId: string, project: Projection, k: nat)
    requires elapsed < DurationNanosBound
    requires k < |ValidIndices(scan)|
    ensures var (laser, cloud) := Encode(scan, elapsed, frameId, project);
            && PointStride * k + PointStride <= |cloud.data|
            && cloud.data[PointStride * k + 8] == laser.intensities[ValidIndices(scan)[k]]
  {
    ValidPointsAreValidIndices(scan);
    var points := ProjectAll(ValidPoints(scan), project);
    PackSlice(points, k);
    var slice := Pack(points)[PointStride * k..PointStride * k + PointStride];
    assert slice[8] == points[k].quality;
  }

  /** A revolution of three samples, already in angle order: (0.05 rad, 2.0 m, invalid), (0.1 rad, 1.0 m, valid),
      (0.2 rad, 0.5 m, valid), as `f32` bit patterns. */
  lemma ThreeSampleExample(project: Projection)
    ensures var scan := [ScanPoint(0x3D4C_CCCD, 0x4000_0000, 0, false),
                         ScanPoint(0x3DCC_CCCD, 0x3F80_0000, 10, true),
                         ScanPoint(0x3E4C_CCCD, 0x3F00_0000, 20, true)];
            var (laser, cloud) := Encode(scan, 0, "lidar", project);
            && laser.startAngle == 0x3D4C_CCCD && laser.endAngle == 0x3E4C_CCCD
            && laser.ranges == [0x4000_0000, 0x3F80_0000, 0x3F00_0000]
            && laser.intensities == [0, 10, 20]
            && |cloud.data| == 2 * 9
  {
    var scan := [ScanPoint(0x3D4C_CCCD, 0x4000_0000, 0, false),
                 ScanPoint(0x3DCC_CCCD, 0x3F80_0000, 10, true),
                 ScanPoint(0x3E4C_CCCD, 0x3F00_0000, 20, true)];
    assert scan[..2][..1] == scan[..1];
    assert scan[..1][..0] == [];
    assert ValidIndices(scan[..1]) == [];
    assert ValidIndices(scan[..2]) == [1];
    assert ValidIndices(scan) == [1, 2];
  }
}
