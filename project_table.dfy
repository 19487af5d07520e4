/**
 * The catalog table itself, record by record as the site ships it, and the
 * two exported queries over it. The lemmas at the end state the data
 * invariants the pages rely on, checked against this table.
 */
module ProjectTable {
  import opened Wrappers
  import opened Projects

  /** The `blackout-facility` record. */
  const BlackoutFacility: ProjectData := ProjectData(
    id := "blackout-facility",
    title := "Blackout Facility",
    genre := "First-Person Puzzle Escape",
    role := "Solo Developer",
    kind := Personal,
    image := "/projects/blackout-facility/Blackout-Facility-cover.png",
    overview := Overview(
      description := [
        "A first-person puzzle-escape game where players awaken in a dark, abandoned industrial complex with no memory.",
        "Developed as a capstone project for the Epic Games \"Blueprint Scripting\" course, focusing on complex interconnected systems and environmental storytelling."
      ],
      engine := "Unreal Engine 5.5",
      timeframe := "4 weeks",
      team := "Solo (Capstone Project)"),
    roleSkills := RoleSkills(
      description := [
        "Architected object-oriented Blueprint systems with parent classes and interfaces",
        "Implemented cascading event systems where single actions transform the entire environment",
        "Designed multi-stage puzzles requiring logical deduction and backtracking",
        "Created custom models and level layout using in-engine modeling tools"
      ],
      badges := [
        "Unreal Engine 5",
        "Blueprints",
        "System Design",
        "Puzzle Design"
      ]),
    screenshots := [
      "/projects/blackout-facility/Blackout-Facility-ss-1.png",
      "/projects/blackout-facility/Blackout-Facility-ss-2.png",
      "/projects/blackout-facility/Blackout-Facility-ss-3.png",
      "/projects/blackout-facility/Blackout-Facility-ss-4.png",
      "/projects/blackout-facility/Blackout-Facility-ss-5.png",
      "/projects/blackout-facility/Blackout-Facility-ss-6.png",
      "/projects/blackout-facility/Blackout-Facility-ss-7.png",
      "/projects/blackout-facility/Blackout-Facility-cer.png"
    ],
    sections := [
      Section(
        title := "Design Pillars",
        id := "pillars",
        content := [
          "The game is built on three core design philosophies that guide the player experience."
        ],
        bullets := None,
        images := None,
        subsections := Some([
          Subsection(
            title := "Core Concepts",
            bullets := None,
            pillars := Some([
              Pillar("\U{2699}\U{FE0F}", "Interconnectivity", "Actions have cascading effects"),
              Pillar("\U{1F4A1}", "Transformation", "Darkness to light progression"),
              Pillar("\U{1F9E0}", "Deduction", "Logic over reflexes"),
              Pillar("\U{1F504}", "Backtracking", "Revisiting areas with new context")
            ]))
        ])),
      Section(
        title := "Technical Architecture",
        id := "architecture",
        content := [
          "Leverages advanced Blueprint concepts to create a scalable and clean codebase."
        ],
        bullets := Some([
          "Universal Interaction System (BPI_Interactable) for decoupled logic",
          "Parent Classes (BP_Electronics) for shared functionality across props",
          "Event Dispatchers for communicating state changes (e.g., Power On event)",
          "Dynamic Material Instances for real-time emissive lighting changes"
        ]),
        images := None,
        subsections := None),
      Section(
        title := "Level Layout",
        id := "layout",
        content := [
          "The facility is split across two floors, requiring the player to restore power to access the elevator and unlock new areas."
        ],
        bullets := None,
        images := Some([
          Captioned("/projects/blackout-facility/Blackout-Facility-floor-1.png", "Floor 1: The Industrial Zone - Featuring the Central Hub, Server Room, and Storage areas."),
          Captioned("/projects/blackout-facility/Blackout-Facility-floor-2.png", "Floor 2: The Corporate Offices - Containing the Executive Hallway, Open Offices, and the Final Meeting Room.")
        ]),
        subsections := None)
    ],
    links := Some(Links(playStore := None, github := Some("https://github.com/FahimKamal/UE5_MazeEscape"))),
    video := Some("/projects/blackout-facility/blackout-facility.mp4"),
    pdf := Some("/projects/blackout-facility/GDD - Blackout Facility.pdf"))

  /** The `unreal-paradise` record. */
  const UnrealParadise: ProjectData := ProjectData(
    id := "unreal-paradise",
    title := "Unreal Paradise",
    genre := "Environment Art - Stylized Fantasy",
    role := "Environment Artist",
    kind := Personal,
    image := "/projects/unreal-paradise/Unreal Paradise-cover.png",
    overview := Overview(
      description := [
        "An immersive, stylized fantasy jungle village created in Unreal Engine 5.5, showcasing environment art and cinematic storytelling.",
        "Developed as a final assignment for the \"Unreal Engine Fundamentals\" course, focusing on landscape sculpting, foliage placement, and lighting."
      ],
      engine := "Unreal Engine 5.5",
      timeframe := "2 weeks",
      team := "Solo (Course Submission)"),
    roleSkills := RoleSkills(
      description := [
        "Sculpted custom terrain using Landscape Mode and integrated a dynamic river system",
        "Curated and placed stylized assets to create a cohesive village atmosphere",
        "Utilized Sequencer and Cine Camera Actors to direct and render a 24-second cinematic",
        "Implemented post-processing volumes and ambient audio for immersion"
      ],
      badges := [
        "Unreal Engine 5",
        "Environment Art",
        "Lighting",
        "Cinematics"
      ]),
    screenshots := [
      "/projects/unreal-paradise/Unreal Paradise-ss-1.png",
      "/projects/unreal-paradise/Unreal Paradise-ss-2.png",
      "/projects/unreal-paradise/Unreal Paradise-ss-3.png",
      "/projects/unreal-paradise/Unreal Paradise-ss-4.png",
      "/projects/unreal-paradise/Unreal Paradise-ss-5.png",
      "/projects/unreal-paradise/Unreal Paradise-ss-6.png",
      "/projects/unreal-paradise/Unreal Paradise-cer.png"
    ],
    sections := [
      Section(
        title := "Artistic Direction",
        id := "art-direction",
        content := [
          "The project aims for a vibrant, painterly aesthetic inspired by classic RPGs, blending lush jungle foliage with quaint village architecture."
        ],
        bullets := None,
        images := None,
        subsections := Some([
          Subsection(
            title := "Key Elements",
            bullets := Some([
              "Custom-sculpted landscape with varied elevation",
              "Dense, hand-painted foliage layers (trees, grass, bushes)",
              "Atmospheric lighting with dynamic shadows",
              "Integrated environmental storytelling through prop placement"
            ]),
            pillars := None)
        ])),
      Section(
        title := "Cinematic Production",
        id := "cinematic",
        content := [
          "A key focus was mastering the Sequencer tool to produce a polished showcase video."
        ],
        bullets := Some([
          "Camera composition and movement planning",
          "Sequencer keyframing and editing",
          "High-quality rendering pipeline to Blender"
        ]),
        images := None,
        subsections := None)
    ],
    links := Some(Links(playStore := None, github := Some("https://github.com/FahimKamal/UE5_Stylised_Env"))),
    video := Some("/projects/unreal-paradise/unreal-paradise.mp4"),
    pdf := None)

  /** The `medieval-village` record. */
  const MedievalVillage: ProjectData := ProjectData(
    id := "medieval-village",
    title := "Medieval Village Prototype",
    genre := "Level Design - Open World Blockout",
    role := "Level Designer",
    kind := Personal,
    image := "/projects/medieval-village/Medieval Village-cover.png",
    overview := Overview(
      description := [
        "A comprehensive greybox prototype of an open-world medieval village, developed as a capstone project for the Epic Games Level Design Certificate.",
        "Focuses on spatial design, player flow, and environmental storytelling using Unreal Engine 5.5."
      ],
      engine := "Unreal Engine 5.5",
      timeframe := "4 weeks",
      team := "Solo (Capstone Project)"),
    roleSkills := RoleSkills(
      description := [
        "Translated conceptual Level Design Document (LDD) into a playable 3D space",
        "Designed distinct zones (Castle, Village, Farm) with clear navigation and sightlines",
        "Utilized SuperGrid for effective greyboxing and scale validation",
        "Implemented gameplay affordances for future stealth and exploration mechanics"
      ],
      badges := [
        "Level Design",
        "Greyboxing",
        "Spatial Design",
        "Unreal Engine 5"
      ]),
    screenshots := [
      "/projects/medieval-village/Medieval Village-ss.png",
      "/projects/medieval-village/Medieval Village-ss-2.png",
      "/projects/medieval-village/Medieval Village-ss-3.png",
      "/projects/medieval-village/Medieval Village-ss-4.png",
      "/projects/medieval-village/Medieval Village-ss-5.png",
      "/projects/medieval-village/Medieval Village-ss-6.png",
      "/projects/medieval-village/Medieval Village-ss-7.png",
      "/projects/medieval-village/Medieval Village-ss-8.png",
      "/projects/medieval-village/Medieval Village-ss-9.png",
      "/projects/medieval-village/Medieval Village-ss-10.png",
      "/projects/medieval-village/Medieval Village-certificate.png"
    ],
    sections := [
      Section(
        title := "Design Philosophy",
        id := "design",
        content := [
          "The project emphasizes readability and flow, ensuring players can intuitively navigate complex urban and rural environments."
        ],
        bullets := None,
        images := None,
        subsections := Some([
          Subsection(
            title := "Zone Definition",
            bullets := Some([
              "Castle (80x80m): High ground fortification with traversable walls",
              "Village (150x150m): Residential and commercial hub with distinct landmarks",
              "Farming Area: Open fields providing contrast to the dense village"
            ]),
            pillars := None),
          Subsection(
            title := "Narrative Beats",
            bullets := Some([
              "Arrival: Player enters and observes distinct zones",
              "Discovery: Identifying questgivers and vulnerable spots",
              "Challenge: Choosing between Hero (Social) or Thief (Stealth) paths",
              "Exploration: Uncovering hidden paths and secluded areas"
            ]),
            pillars := None),
          Subsection(
            title := "Key Design Elements",
            bullets := Some([
              "Verticality: Multi-tiered castle and village layout",
              "Sightlines: Strategic framing of landmarks (e.g., The Keep, Smithy)",
              "Pacing: Alternating tight alleyways and open courtyards"
            ]),
            pillars := None)
        ])),
      Section(
        title := "Layout & Map",
        id := "layout",
        content := [
          "A top-down view of the level reveals the interconnected nature of the distinct zones."
        ],
        bullets := None,
        images := Some([
          Path("/projects/medieval-village/Medieval Village-map.png")
        ]),
        subsections := None)
    ],
    links := Some(Links(playStore := None, github := Some("https://github.com/FahimKamal/UE5_CastleBlockout"))),
    video := Some("/projects/medieval-village/medieval-village.mp4"),
    pdf := Some("/projects/medieval-village/Level Design Document Medieval Village Prototype.pdf"))

  /** The `spellcaster` record. */
  const Spellcaster: ProjectData := ProjectData(
    id := "spellcaster",
    title := "Spellcaster",
    genre := "Top-Down - Action Survival",
    role := "Solo Developer",
    kind := Personal,
    image := "/projects/spellcaster/Spellcaster-ss-1.png",
    overview := Overview(
      description := [
        "A fast-paced top-down action survival game built with Unreal Engine 5 using Blueprints.",
        "Play as a sorcerer's apprentice battling waves of hostile slimes with upgradeable spells."
      ],
      engine := "Unreal Engine 5",
      timeframe := "4 weeks",
      team := "Solo Project"),
    roleSkills := RoleSkills(
      description := [
        "Full game development using Blueprints visual scripting",
        "Implemented auto-casting combat system with multiple spell types",
        "Created enemy AI behavior for different slime types",
        "Designed progression system with XP drops and level-up upgrades"
      ],
      badges := [
        "Unreal Engine 5",
        "Blueprints",
        "Action Survival",
        "Game Design"
      ]),
    screenshots := [
      "/projects/spellcaster/Spellcaster-ss-1.png",
      "/projects/spellcaster/Spellcaster-ss-2.png",
      "/projects/spellcaster/Spellcaster-ss-3.png",
      "/projects/spellcaster/Spellcaster-ss-4.png",
      "/projects/spellcaster/Spellcaster-ss-5.png"
    ],
    sections := [
      Section(
        title := "Game Mechanics",
        id := "mechanics",
        content := [
          "The core loop involves surviving waves of enemies while collecting experience to upgrade your arsenal."
        ],
        bullets := None,
        images := None,
        subsections := Some([
          Subsection(
            title := "Spell System",
            bullets := Some([
              "Firebolt: Default auto-aimed projectile",
              "Ice Spear: Circling defensive projectiles that launch outwards",
              "Magic Orbs: Orbiting damage zone",
              "Wind Gale: Random area-of-effect blasts"
            ]),
            pillars := None),
          Subsection(
            title := "Progression",
            bullets := Some([
              "XP Coins: Copper (5), Silver (15), Gold (50)",
              "5 Upgrade levels for each spell",
              "Health pickups for sustainability",
              "Escalating difficulty with stronger enemy types"
            ]),
            pillars := None)
        ])),
      Section(
        title := "Technical Implementation",
        id := "technical",
        content := [
          "Built entirely using Unreal Engine Blueprints to demonstrate visual scripting capabilities."
        ],
        bullets := Some([
          "Modular spell system for easy expansion",
          "Wave management system handling spawn rates and enemy types",
          "Optimized projectile pooling",
          "Custom UI for health, XP, and upgrades"
        ]),
        images := None,
        subsections := None)
    ],
    links := Some(Links(playStore := None, github := Some("https://github.com/FahimKamal/UE5_Survivor_io"))),
    video := Some("/projects/spellcaster/spellcaster.mp4"),
    pdf := None)

  /** The `arena-gauntlet` record. */
  const ArenaGauntlet: ProjectData := ProjectData(
    id := "arena-gauntlet",
    title := "Arena Gauntlet",
    genre := "2D Top-Down - Wave Survival",
    role := "Solo Developer",
    kind := Personal,
    image := "/projects/arena-gauntlet/Arena Gauntlet-ss-1.png",
    overview := Overview(
      description := [
        "A fast-paced top-down 2D wave-based arena fighter developed using Unreal Engine 5 and PaperZD.",
        "Features responsive 8-directional movement, melee & ranged combat, and escalating enemy waves."
      ],
      engine := "Unreal Engine 5 (PaperZD)",
      timeframe := "6 weeks",
      team := "Solo Project"),
    roleSkills := RoleSkills(
      description := [
        "Mastered 2D workflow in Unreal Engine using PaperZD plugin",
        "Implemented data-driven wave spawning system",
        "Created responsive combat mechanics with knockback and invincibility frames",
        "Designed component-based architecture for modular gameplay systems"
      ],
      badges := [
        "Unreal Engine 5",
        "PaperZD",
        "2D Game Dev",
        "Blueprint Scripting"
      ]),
    screenshots := [
      "/projects/arena-gauntlet/Arena Gauntlet-ss-1.png",
      "/projects/arena-gauntlet/Arena Gauntlet-ss-2.png",
      "/projects/arena-gauntlet/Arena Gauntlet-ss-3.png",
      "/projects/arena-gauntlet/Arena Gauntlet-ss-4.png"
    ],
    sections := [
      Section(
        title := "Gameplay Systems",
        id := "gameplay",
        content := [
          "The game focuses on tight controls and reactive combat within a confined arena."
        ],
        bullets := None,
        images := None,
        subsections := Some([
          Subsection(
            title := "Combat Mechanics",
            bullets := Some([
              "Melee (Sword): High damage, close range",
              "Ranged (Bow): Unlockable ability, safe distance attacks",
              "Feedback: Damage flashes, screen shake, and knockback",
              "Survival: Health pickups and wave management"
            ]),
            pillars := None),
          Subsection(
            title := "Enemy AI",
            bullets := Some([
              "Skeleton: Basic melee unit",
              "Boar: Fast charging enemy",
              "Pathfinding: Navigation around arena obstacles",
              "State Machine: Idle, Chase, Attack behaviors"
            ]),
            pillars := None)
        ])),
      Section(
        title := "Technical Implementation",
        id := "technical",
        content := [
          "Built entirely with Blueprints, leveraging the PaperZD plugin for robust 2D animation handling."
        ],
        bullets := Some([
          "Data-driven wave composition using Structs",
          "Centralized Spawning Manager for game flow",
          "Modular Blueprint Components (Health, Hitbox, Movement)",
          "Complete UI integration (HUD, Menus, Win/Loss states)"
        ]),
        images := None,
        subsections := None)
    ],
    links := Some(Links(playStore := None, github := Some("https://github.com/FahimKamal/UE5_DungeonAdvanture"))),
    video := Some("/projects/arena-gauntlet/arena-gauntlet.mp4"),
    pdf := None)

  /** The `pixel-pilgrim` record. */
  const PixelPilgrim: ProjectData := ProjectData(
    id := "pixel-pilgrim",
    title := "Pixel Pilgrim",
    genre := "Hybrid RPG - 2D Characters in 3D World",
    role := "Solo Developer",
    kind := Personal,
    image := "/projects/pixel-pilgrim/Pixel Pilgrim-ss-1.png",
    overview := Overview(
      description := [
        "A unique Hybrid RPG prototype that blends 2D pixel art characters with lush 3D environments set in ancient China.",
        "Built in Unreal Engine 5 using PaperZD, featuring data-driven dialogue and immersive storytelling."
      ],
      engine := "Unreal Engine 5 (PaperZD)",
      timeframe := "8 weeks",
      team := "Solo Project"),
    roleSkills := RoleSkills(
      description := [
        "Implemented hybrid 2D/3D rendering pipeline using PaperZD",
        "Created data-driven dialogue system with DataTable integration",
        "Developed object occlusion system for top-down camera visibility",
        "Programmed NPC AI behaviors including follower mechanics"
      ],
      badges := [
        "Unreal Engine 5",
        "PaperZD",
        "Hybrid Rendering",
        "System Design"
      ]),
    screenshots := [
      "/projects/pixel-pilgrim/Pixel Pilgrim-ss-1.png",
      "/projects/pixel-pilgrim/Pixel Pilgrim-ss-2.png",
      "/projects/pixel-pilgrim/Pixel Pilgrim-ss-3.png",
      "/projects/pixel-pilgrim/Pixel Pilgrim-ss-4.png",
      "/projects/pixel-pilgrim/Pixel Pilgrim-ss-5.png"
    ],
    sections := [
      Section(
        title := "Hybrid Tech Art",
        id := "tech-art",
        content := [
          "The project's core identity lies in the seamless integration of 2D sprites within a fully lit 3D world."
        ],
        bullets := None,
        images := None,
        subsections := Some([
          Subsection(
            title := "Visual Implementation",
            bullets := Some([
              "PaperZD for robust 2D character animation state machines",
              "3D Lumen lighting interacting with 2D billboards",
              "Custom occlusion materials to hide blocking geometry",
              "Cinematic camera sequences for storytelling"
            ]),
            pillars := None)
        ])),
      Section(
        title := "Gameplay Systems",
        id := "systems",
        content := [
          "Focuses on narrative interactions and world exploration powered by flexible backend systems."
        ],
        bullets := Some([
          "Data-driven Dialogue System using DataTables",
          "Quest state tracking and event triggers",
          "NPC Follower AI logic",
          "Interactive object system"
        ]),
        images := None,
        subsections := None)
    ],
    links := Some(Links(playStore := None, github := Some("https://github.com/FahimKamal/UE5_HybridRPG"))),
    video := Some("/projects/pixel-pilgrim/pixel-pilgrim.mp4"),
    pdf := None)

  /** The `falltastic` record. */
  const Falltastic: ProjectData := ProjectData(
    id := "falltastic",
    title := "FallTastic",
    genre := "Casual - 3D Puzzle",
    role := "Lead Developer",
    kind := Professional,
    image := "/projects/falltastic.webp",
    overview := Overview(
      description := [
        "FallTastic is a casual 3D puzzle game where players guide falling objects to create satisfying chain reactions.",
        "As Lead Developer, I oversaw the entire game development process from concept to Play Store release."
      ],
      engine := "Unity",
      timeframe := "12 weeks",
      team := "Nova Labs (4 members)"),
    roleSkills := RoleSkills(
      description := [
        "Led the project overseeing game design and mechanics",
        "Collaborated with team to define gameplay features and style",
        "Built and integrated the 3D game world",
        "Implemented dynamic building animations",
        "Conceptualized UI layout and guided implementation"
      ],
      badges := [
        "Lead Developer",
        "Game Design",
        "Unity",
        "Team Management"
      ]),
    screenshots := [
      "/projects/falltastic.webp"
    ],
    sections := [
      Section(
        title := "Game Design",
        id := "game-design",
        content := [
          "The core gameplay loop focuses on satisfying physics-based interactions and strategic placement."
        ],
        bullets := None,
        images := None,
        subsections := Some([
          Subsection(
            title := "Core Features",
            bullets := Some([
              "Physics-based puzzle mechanics",
              "Progressive difficulty curve",
              "Satisfying visual and audio feedback",
              "Star-based scoring system"
            ]),
            pillars := None),
          Subsection(
            title := "Design Pillars",
            bullets := None,
            pillars := Some([
              Pillar("\U{1F9E9}", "Accessibility", "Easy to understand"),
              Pillar("\U{2728}", "Satisfaction", "Rewarding feedback"),
              Pillar("\U{1F4C8}", "Progression", "Gradual challenge"),
              Pillar("\U{1F3A8}", "Polish", "Visual appeal")
            ]))
        ])),
      Section(
        title := "Technical Development",
        id := "technical",
        content := [
          "Built with Unity for optimal mobile performance and cross-platform compatibility."
        ],
        bullets := Some([
          "Optimized physics calculations for mobile",
          "Dynamic building animation system",
          "Modular level design architecture",
          "Analytics integration for player insights"
        ]),
        images := None,
        subsections := None),
      Section(
        title := "Leadership & Production",
        id := "production",
        content := [
          "Managed a team of 4 including 3D designers, 2D artists, and developers."
        ],
        bullets := Some([
          "Created Game Design Documents (GDD)",
          "Assigned tasks and monitored progress",
          "Ensured deadlines were met",
          "Handled Play Store publishing and updates"
        ]),
        images := None,
        subsections := None)
    ],
    links := Some(Links(playStore := Some("https://play.google.com/store/apps/details?id=com.novalabs.falltastic"), github := None)),
    video := Some("/projects/falltastic.mp4"),
    pdf := None)

  /** The `boat-blitz` record. */
  const BoatBlitz: ProjectData := ProjectData(
    id := "boat-blitz",
    title := "Boat Blitz",
    genre := "Casual - Infinite Runner",
    role := "Game Engine Engineer",
    kind := Professional,
    image := "/projects/boatBlitz.png",
    overview := Overview(
      description := [
        "Boat Blitz is an endless runner game featuring speedboat racing across infinite oceans with dynamic environments.",
        "I developed core systems including infinite terrain generation and day-night cycles."
      ],
      engine := "Unity",
      timeframe := "10 weeks",
      team := "Nova Labs (3 members)"),
    roleSkills := RoleSkills(
      description := [
        "Developed infinite water and island generation system",
        "Implemented day-night cycle with lighting",
        "Designed and integrated all UI elements",
        "Optimized performance for mobile devices"
      ],
      badges := [
        "Unity",
        "C#",
        "Procedural Generation",
        "UI/UX"
      ]),
    screenshots := [
      "/projects/boatBlitz.png"
    ],
    sections := [
      Section(
        title := "Procedural Generation",
        id := "procedural",
        content := [
          "The infinite ocean system dynamically generates terrain to create an endless gameplay experience."
        ],
        bullets := Some([
          "Chunk-based terrain generation",
          "Object pooling for performance",
          "Dynamic island placement algorithms",
          "Seamless loading with no stutters"
        ]),
        images := None,
        subsections := None),
      Section(
        title := "Visual Systems",
        id := "visual",
        content := [
          "Implemented atmospheric systems to enhance immersion and visual variety."
        ],
        bullets := Some([
          "Real-time day-night cycle",
          "Dynamic lighting and shadows",
          "Water shader with reflections",
          "Weather effects integration"
        ]),
        images := None,
        subsections := None)
    ],
    links := Some(Links(playStore := Some("https://play.google.com/store/apps/details?id=com.novalabs.bb"), github := None)),
    video := Some("/projects/boat-blitz.mp4"),
    pdf := None)

  /** The `temple-of-masks` record. */
  const TempleOfMasks: ProjectData := ProjectData(
    id := "temple-of-masks",
    title := "Temple of Masks",
    genre := "Puzzle - Level Based",
    role := "Level Designer (70 levels)",
    kind := Professional,
    image := "/projects/temple of masks.png",
    overview := Overview(
      description := [
        "Temple of Masks is a puzzle game set in ancient Mayan temples where players solve increasingly complex challenges.",
        "I designed and developed 70 levels (levels 31-100) with progressive difficulty and cultural elements."
      ],
      engine := "Unity",
      timeframe := "16 weeks",
      team := "Nova Labs (4 members)"),
    roleSkills := RoleSkills(
      description := [
        "Designed 70 unique puzzle levels",
        "Implemented progressive difficulty curve",
        "Added Mayan culture fact pop-ups",
        "Documented all C# classes and functions"
      ],
      badges := [
        "Level Design",
        "Puzzle Design",
        "Documentation",
        "Cultural Research"
      ]),
    screenshots := [
      "/projects/temple of masks.png"
    ],
    sections := [
      Section(
        title := "Level Design",
        id := "level-design",
        content := [
          "Each level was carefully crafted to introduce new mechanics and challenge player mastery."
        ],
        bullets := None,
        images := None,
        subsections := Some([
          Subsection(
            title := "Design Approach",
            bullets := Some([
              "Tutorial levels for new mechanics",
              "Gradual complexity increase",
              "Multiple solution paths where appropriate",
              "Hint system for stuck players"
            ]),
            pillars := None),
          Subsection(
            title := "Design Pillars",
            bullets := None,
            pillars := Some([
              Pillar("\U{1F9E0}", "Challenge", "Engaging puzzles"),
              Pillar("\U{1F4DA}", "Learning", "Teach mechanics"),
              Pillar("\U{1F3AD}", "Theme", "Mayan culture"),
              Pillar("\U{2B50}", "Satisfaction", "Rewarding solves")
            ]))
        ])),
      Section(
        title := "Cultural Integration",
        id := "cultural",
        content := [
          "Proposed and implemented educational elements to enhance player immersion."
        ],
        bullets := Some([
          "Mayan culture fact pop-ups between levels",
          "Thematically appropriate puzzle mechanics",
          "Visual elements inspired by Mayan art",
          "Soundtrack reflecting the setting"
        ]),
        images := None,
        subsections := None),
      Section(
        title := "Documentation",
        id := "documentation",
        content := [
          "Created comprehensive documentation for future developer reference."
        ],
        bullets := Some([
          "Documented all C# classes and functions",
          "Level design guidelines document",
          "Puzzle mechanic specifications",
          "Difficulty curve analysis"
        ]),
        images := None,
        subsections := None)
    ],
    links := Some(Links(playStore := Some("https://play.google.com/store/apps/details?id=com.novalabs.tom"), github := None)),
    video := Some("/projects/temple-of-masks.mp4"),
    pdf := None)

  /** The catalog, in source order: six personal records, then three professional ones. */
  const Catalog: seq<ProjectData> := [BlackoutFacility, UnrealParadise, MedievalVillage, Spellcaster, ArenaGauntlet, PixelPilgrim, Falltastic, BoatBlitz, TempleOfMasks]

  /** `getProjectById`: the catalog record with this id, if there is one. */
  function GetProjectById(id: string): (r: Option<ProjectData>)
    ensures r.Some? ==> r.value in Catalog && r.value.id == id
    ensures r.None? <==> forall i :: 0 <= i < |Catalog| ==> Catalog[i].id != id
  {
    FindById(Catalog, id)
  }

  /** `getProjectsByType`: the catalog records of kind `t`, in catalog order. */
  function GetProjectsByType(t: ProjectType): (r: seq<ProjectData>)
    ensures forall x :: x in r <==> x in Catalog && x.kind == t
  {
    FilterByType(Catalog, t)
  }

  /** The nine ids are pairwise distinct. */
  lemma CatalogIdsDistinct()
    ensures IdsDistinct(Catalog)
  {
  }

  /** Every record is found again under its own id. */
  lemma LookupOwnId(r: ProjectData)
    requires r in Catalog
    ensures GetProjectById(r.id) == Some(r)
  {
    CatalogIdsDistinct();
    var k :| 0 <= k < |Catalog| && Catalog[k] == r;
    FindOwnId(Catalog, k);
  }

  /** No record has the empty id, so a missing route parameter finds nothing. */
  lemma EmptyIdNotFound()
    ensures GetProjectById("") == None
  {
  }

  /** The six personal records come first, then the three professional ones. */
  lemma CatalogPersonalFirst()
    ensures PersonalFirst(Catalog)
  {
  }

  /** The home page's two lists, placed one after the other, are exactly the catalog. */
  lemma HomeListsPartitionCatalog()
    ensures GetProjectsByType(Personal) + GetProjectsByType(Professional) == Catalog
  {
    CatalogPersonalFirst();
    PartitionByType(Catalog);
  }

  /** The personal list is the first six records and the professional list the last three. */
  lemma HomeListsContents()
    ensures GetProjectsByType(Personal) == PersonalRecords
    ensures GetProjectsByType(Professional) == ProfessionalRecords
  {
    CatalogSplit();
    PersonalRecordsUniform();
    ProfessionalRecordsUniform();
    FilterAppend(PersonalRecords, ProfessionalRecords, Personal);
    FilterAppend(PersonalRecords, ProfessionalRecords, Professional);
  }

  const PersonalRecords: seq<ProjectData> :=
    [BlackoutFacility, UnrealParadise, MedievalVillage, Spellcaster, ArenaGauntlet, PixelPilgrim]
  const ProfessionalRecords: seq<ProjectData> := [Falltastic, BoatBlitz, TempleOfMasks]

  lemma CatalogSplit()
    ensures Catalog == PersonalRecords + ProfessionalRecords
  {
  }

  lemma PersonalRecordsUniform()
    ensures FilterByType(PersonalRecords, Personal) == PersonalRecords
    ensures FilterByType(PersonalRecords, Professional) == []
  {
    FilterUniform(PersonalRecords, Personal);
  }

  lemma ProfessionalRecordsUniform()
    ensures FilterByType(ProfessionalRecords, Professional) == ProfessionalRecords
    ensures FilterByType(ProfessionalRecords, Personal) == []
  {
    FilterUniform(ProfessionalRecords, Professional);
  }

  /** In every record, section ids are distinct and avoid the reserved anchors. */
  lemma CatalogSectionIdsWellFormed(r: ProjectData)
    requires r in Catalog
    ensures SectionIdsWellFormed(r)
  {
    BlackoutFacilitySectionIds();
    UnrealParadiseSectionIds();
    MedievalVillageSectionIds();
    SpellcasterSectionIds();
    ArenaGauntletSectionIds();
    PixelPilgrimSectionIds();
    FalltasticSectionIds();
    BoatBlitzSectionIds();
    TempleOfMasksSectionIds();
  }

  lemma BlackoutFacilitySectionIds()
    ensures SectionIdsWellFormed(BlackoutFacility)
  {
  }

  lemma UnrealParadiseSectionIds()
    ensures SectionIdsWellFormed(UnrealParadise)
  {
  }

  lemma MedievalVillageSectionIds()
    ensures SectionIdsWellFormed(MedievalVillage)
  {
  }

  lemma SpellcasterSectionIds()
    ensures SectionIdsWellFormed(Spellcaster)
  {
  }

  lemma ArenaGauntletSectionIds()
    ensures SectionIdsWellFormed(ArenaGauntlet)
  {
  }

  lemma PixelPilgrimSectionIds()
    ensures SectionIdsWellFormed(PixelPilgrim)
  {
  }

  lemma FalltasticSectionIds()
    ensures SectionIdsWellFormed(Falltastic)
  {
  }

  lemma BoatBlitzSectionIds()
    ensures SectionIdsWellFormed(BoatBlitz)
  {
  }

  lemma TempleOfMasksSectionIds()
    ensures SectionIdsWellFormed(TempleOfMasks)
  {
  }

  /** Every record has at least one screenshot. */
  lemma CatalogHasScreenshots(r: ProjectData)
    requires r in Catalog
    ensures |r.screenshots| > 0
  {
  }
}
