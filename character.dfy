/**
 * The player character (ATAM_CWCharacter) as an object: its progression
 * fields, updated in place, and the one-slot save record held in two
 * two-element arrays. Every method is proved to leave exactly the state the
 * corresponding function of module Experience computes, so the properties
 * proved there hold of the object.
 */
module PlayerCharacter {
  import Experience

  class Character {
    var CurrentLevel: int
    var SkillPoints: int
    var LevelCap: int
    var CurrentExp: real
    var MaxExp: real
    var ExpGrowth: real
    var ExpLeft: real
    var ExpPercentage: Experience.Quotient
    var ExpOverflow: real
    var PreviousCurrentExp: real

    /** [CurrentExp, MaxExp] at the last save. */
    const ExpProgressData: array<real>
    /** [CurrentLevel, SkillPoints] at the last save. */
    const LevelProgressData: array<int>
    var hasSaved: bool

    /** Times a level-up has armed the one-shot "Level Up!" timer (_loopTimerHandle). */
    var LevelUpTimerRequests: nat

    ghost predicate Sized()
    {
      ExpProgressData.Length == 2 && LevelProgressData.Length == 2
    }

    /** The abstract value of the object. */
    ghost function Model(): (m: Experience.CharacterState)
      reads this, ExpProgressData, LevelProgressData
      requires Sized()
    {
      Experience.CharacterState(
        CurrentLevel, SkillPoints, LevelCap, CurrentExp, MaxExp, ExpGrowth,
        ExpLeft, ExpPercentage, ExpOverflow, PreviousCurrentExp,
        Experience.Snapshot(ExpProgressData[0], ExpProgressData[1], LevelProgressData[0], LevelProgressData[1]),
        hasSaved, LevelUpTimerRequests)
    }

    ghost predicate Valid()
      reads this, ExpProgressData, LevelProgressData
    {
      Sized() && Experience.Valid(Model())
    }

    /** The field initialisation of BeginPlay; the save slot starts zeroed and empty. */
    constructor BeginPlay()
      ensures Valid() && fresh(ExpProgressData) && fresh(LevelProgressData)
      ensures Model() == Experience.Initial()
      ensures CurrentLevel == 1 && SkillPoints == 0 && LevelCap == 100
      ensures MaxExp == 100.0 && CurrentExp == 0.0 && ExpGrowth == 1.2 && ExpLeft == MaxExp
    {
      CurrentLevel := 1;
      SkillPoints := 0;
      LevelCap := 100;
      MaxExp := 100.0;
      CurrentExp := 0.0;
      PreviousCurrentExp := 0.0;
      ExpPercentage := Experience.Finite(0.0);
      ExpGrowth := 1.2;
      ExpOverflow := 0.0;
      ExpLeft := 100.0;
      ExpProgressData := new real[] [0.0, 0.0];
      LevelProgressData := new int[] [0, 0];
      hasSaved := false;
      LevelUpTimerRequests := 0;
    }

    /** The bar's fill fraction; below the cap it is CurrentExp over MaxExp. */
    function GetExp(): (p: Experience.Quotient)
      reads this, ExpProgressData, LevelProgressData
      requires Valid()
      ensures CurrentLevel < LevelCap ==> p.Finite? && p.value * MaxExp == CurrentExp
    {
      ExpPercentage
    }

    method UpdateExp(ExpChange: real)
      requires Valid()
      modifies this
      ensures Valid()
      ensures Model() == Experience.UpdateExp(old(Model()), ExpChange)
    {
      ghost var before := Model();
      if CurrentLevel < LevelCap {
        PreviousCurrentExp := CurrentExp;
        CurrentExp := CurrentExp + ExpChange;
        ExpLeft := MaxExp - CurrentExp;
        ExpPercentage := Experience.Divide(CurrentExp, MaxExp);
      }
      Experience.StepPreservesValid(before, Experience.ExpGained(ExpChange));
    }

    method AddExp()
      requires Valid()
      modifies this
      ensures Valid()
      ensures Model() == Experience.AddExp(old(Model()))
    {
      UpdateExp(Experience.DebugExp);
    }

    method BufferExp()
      requires Sized()
      modifies this
      ensures Model() == Experience.BufferExp(old(Model()))
    {
      if CurrentExp != MaxExp {
        ExpOverflow := CurrentExp - MaxExp;
        CurrentExp := 0.0 + ExpOverflow;
        CurrentExp := Experience.Round(CurrentExp) as real;
        ExpOverflow := 0.0;
      } else {
        CurrentExp := 0.0;
      }
      ExpLeft := MaxExp * ExpGrowth - CurrentExp;
    }

    method LevelUp()
      requires Sized()
      modifies this
      ensures Model() == Experience.LevelUp(old(Model()))
    {
      ghost var before := Model();
      CurrentLevel := CurrentLevel + 1;
      SkillPoints := SkillPoints + 1;
      assert Model() == Experience.RaiseLevel(before);
      BufferExp();
      ghost var buffered := Model();
      MaxExp := MaxExp * ExpGrowth;
      ExpPercentage := Experience.Divide(CurrentExp, MaxExp);
      LevelUpTimerRequests := LevelUpTimerRequests + 1;
      assert Model() == Experience.GrowThreshold(buffered);
    }

    method LevelCapped()
      requires Sized()
      modifies this
      ensures Model() == Experience.LevelCapped(old(Model()))
    {
      MaxExp := CurrentExp;
      ExpOverflow := CurrentExp;
    }

    /** One frame; the frame time is not used. */
    method Tick(DeltaTime: real)
      requires Valid()
      modifies this
      ensures Valid()
      ensures Model() == Experience.Tick(old(Model()))
    {
      ghost var before := Model();
      if CurrentExp >= MaxExp && CurrentLevel < LevelCap {
        LevelUp();
      }
      if CurrentLevel >= LevelCap {
        LevelCapped();
      }
      Experience.StepPreservesValid(before, Experience.Ticked);
    }

    method SaveData(SCurrentExp: real, SMaxExp: real, SCurrentLevel: int, SSkillpoints: int)
      requires Sized()
      modifies ExpProgressData, LevelProgressData
      ensures Model() == Experience.SaveData(old(Model()), SCurrentExp, SMaxExp, SCurrentLevel, SSkillpoints)
    {
      ExpProgressData[0] := SCurrentExp;
      ExpProgressData[1] := SMaxExp;
      LevelProgressData[0] := SCurrentLevel;
      LevelProgressData[1] := SSkillpoints;
    }

    method SaveGame()
      requires Valid()
      modifies this, ExpProgressData, LevelProgressData
      ensures Valid()
      ensures Model() == Experience.SaveGame(old(Model()))
    {
      ghost var before := Model();
      SaveData(CurrentExp, MaxExp, CurrentLevel, SkillPoints);
      hasSaved := true;
      Experience.StepPreservesValid(before, Experience.SavePressed);
    }

    method LoadData()
      requires Valid()
      modifies this
      ensures Valid()
      ensures Model() == Experience.LoadData(old(Model()))
    {
      ghost var before := Model();
      if hasSaved {
        CurrentExp := ExpProgressData[0];
        MaxExp := ExpProgressData[1];
        CurrentLevel := LevelProgressData[0];
        SkillPoints := LevelProgressData[1];
        ExpPercentage := Experience.Divide(ExpProgressData[0], ExpProgressData[1]);
        ExpLeft := MaxExp - CurrentExp;
      }
      Experience.StepPreservesValid(before, Experience.LoadPressed);
    }

    method SpendSkillPoints()
      requires Valid()
      modifies this
      ensures Valid()
      ensures Model() == Experience.SpendSkillPoints(old(Model()))
    {
      SkillPointsCost(1);
    }

    method SkillPointsCost(Cost: int)
      requires Valid()
      modifies this
      ensures Valid()
      ensures Model() == Experience.SkillPointsCost(old(Model()), Cost)
    {
      if SkillPoints > 0 {
        SkillPoints := SkillPoints - Cost;
      }
    }
  }
}
