/**
 * The external shader manager, seen from the scene manager: a sink that
 * accepts named uniform writes. It is modelled as the append-only log of
 * the writes it received. The uniform state that log amounts to is the last
 * value written under each name, every write taken as accepted.
 *
 * glm's single-precision values are carried as reals: the scene manager only
 * passes them through and does no arithmetic on them.
 */
module ShaderSink {

  datatype Vec2 = Vec2(u: real, v: real)
  datatype Vec3 = Vec3(x: real, y: real, z: real)
  datatype Vec4 = Vec4(r: real, g: real, b: real, a: real)

  /** An angle as glm::radians produces it from degrees; the conversion itself is floating point and is kept symbolic. */
  datatype Angle = Radians(degrees: real)

  /** A 4x4 matrix, recorded as the product of the glm factors that built it. */
  datatype Transform =
    | Scale(factors: Vec3)
    | RotateX(ax: Angle)
    | RotateY(ay: Angle)
    | RotateZ(az: Angle)
    | Translate(offset: Vec3)
    | Product(left: Transform, right: Transform)

  /** One value per setter of the shader manager the scene manager calls. */
  datatype UniformValue =
    | IntValue(i: int)            // setIntValue, also used for the bool flags
    | SamplerValue(unit: int)     // setSampler2DValue
    | FloatValue(f: real)         // setFloatValue
    | Vec2Value(v2: Vec2)         // setVec2Value
    | Vec3Value(v3: Vec3)         // setVec3Value
    | Vec4Value(v4: Vec4)         // setVec4Value
    | Mat4Value(m: Transform)     // setMat4Value

  datatype UniformWrite = UniformWrite(name: string, value: UniformValue)

  /** The names written somewhere in `log`. */
  ghost function Names(log: seq<UniformWrite>): set<string>
  {
    set k | 0 <= k < |log| :: log[k].name
  }

  /** The uniform state after `log`: each name holds its last written value.
      Every write counts as accepted; a value the device would refuse is not
      filtered out here. */
  function Uniforms(log: seq<UniformWrite>): (state: map<string, UniformValue>)
    ensures state.Keys == Names(log)
  {
    if log == [] then map[]
    else
      var last := log[|log| - 1];
      var front := log[..|log| - 1];
      assert Names(log) == Names(front) + {last.name} by {
        forall n | n in Names(log) ensures n in Names(front) + {last.name} {
          var k :| 0 <= k < |log| && log[k].name == n;
          if k < |log| - 1 { assert front[k] == log[k]; }
        }
        forall n | n in Names(front) ensures n in Names(log) {
          var k :| 0 <= k < |front| && front[k].name == n;
          assert log[k] == front[k];
        }
      }
      Uniforms(front)[last.name := last.value]
  }

  /** One more write updates exactly the name it writes. */
  lemma UniformsSnoc(log: seq<UniformWrite>, w: UniformWrite)
    ensures Uniforms(log + [w]) == Uniforms(log)[w.name := w.value]
  {
    assert (log + [w])[..|log|] == log;
  }

  /** The last write of a name decides what the shader sees under it,
      whatever was written before and whatever other names follow. */
  lemma {:induction false} LastWriteWins(log: seq<UniformWrite>, k: int)
    requires 0 <= k < |log|
    requires forall j :: k < j < |log| ==> log[j].name != log[k].name
    ensures log[k].name in Uniforms(log)
    ensures Uniforms(log)[log[k].name] == log[k].value
  {
    var front := log[..|log| - 1];
    assert log == front + [log[|log| - 1]];
    UniformsSnoc(front, log[|log| - 1]);
    if k < |log| - 1 {
      forall j | k < j < |front| ensures front[j].name != front[k].name {
        assert front[j] == log[j];
      }
      LastWriteWins(front, k);
    }
  }

  /** The shader manager as an append-only log of the uniform writes it received. */
  class ShaderManager {
    var log: seq<UniformWrite>

    constructor ()
      ensures log == []
    {
      log := [];
    }

    /** Receive one named uniform write. */
    method Write(name: string, value: UniformValue)
      modifies this
      ensures log == old(log) + [UniformWrite(name, value)]
    {
      log := log + [UniformWrite(name, value)];
    }
  }
}
